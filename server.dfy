/**
 * The selection and normalisation logic of backend/server.js: the WATCH list, the
 * start/next request (pair and mode defaults, hold-reason fallback) and the auto-pick
 * pass over the watch list. Sockets, JSON framing and broadcasting are not modelled.
 */
module Server {
  import opened Wrappers
  import opened SignalEngine
  import Text

  const DefaultWatchSymbols := "EUR/USD,GBP/USD,USD/JPY,AUD/USD,USD/CAD,USD/CHF,NZD/USD"

  /** `.filter(Boolean)` on strings: drop the empty ones, keep the order. */
  function NonEmpty(names: seq<string>): (r: seq<string>)
    ensures forall i :: 0 <= i < |r| ==> r[i] != []
  {
    if names == [] then []
    else
      var rest := NonEmpty(names[..|names| - 1]);
      var last := names[|names| - 1];
      if last == [] then rest else rest + [last]
  }

  /** The kept names are exactly the non-empty ones of the input. */
  lemma {:induction false} NonEmptyMembers(names: seq<string>)
    ensures forall i :: 0 <= i < |NonEmpty(names)| ==> NonEmpty(names)[i] in names
    ensures forall i :: 0 <= i < |names| && names[i] != [] ==> names[i] in NonEmpty(names)
  {
    if names != [] {
      var n := |names| - 1;
      NonEmptyMembers(names[..n]);
      assert forall i :: 0 <= i < n ==> names[..n][i] == names[i];
    }
  }

  /** `NonEmpty` keeps a one-name list exactly when the name is not empty. */
  lemma NonEmptySingle(x: string)
    ensures NonEmpty([x]) == if x == [] then [] else [x]
  {
    assert [x][..0] == [];
  }

  /** `NonEmpty` works name by name: it keeps the order and every repetition of the non-empty names. */
  lemma {:induction false} NonEmptyAppend(a: seq<string>, b: seq<string>)
    ensures NonEmpty(a + b) == NonEmpty(a) + NonEmpty(b)
    decreases |b|
  {
    if b == [] {
      assert a + b == a;
    } else {
      var n := |b| - 1;
      NonEmptyAppend(a, b[..n]);
      assert (a + b)[..|a + b| - 1] == a + b[..n];
    }
  }

  function TrimAll(parts: seq<string>): (r: seq<string>)
    ensures |r| == |parts| && forall i :: 0 <= i < |parts| ==> r[i] == Text.Trim(parts[i])
  {
    seq(|parts|, i requires 0 <= i < |parts| => Text.Trim(parts[i]))
  }

  /** The WATCH list parsed from a raw setting: split on ',', trimmed, empty names dropped. */
  function WatchFrom(raw: string): (watch: seq<string>)
    ensures forall i :: 0 <= i < |watch| ==> watch[i] != [] && Text.IsTrimmed(watch[i]) && ',' !in watch[i]
  {
    var parts := Text.Split(raw, ',');
    var names := NonEmpty(TrimAll(parts));
    NonEmptyMembers(TrimAll(parts));
    assert forall i :: 0 <= i < |names| ==> exists k :: 0 <= k < |parts| && names[i] == Text.Trim(parts[k]);
    names
  }

  /** WATCH: WATCH_SYMBOLS when set and non-empty, else the seven-pair default, parsed by `WatchFrom`. */
  function ParseWatch(env: Option<string>): (watch: seq<string>)
    ensures forall i :: 0 <= i < |watch| ==> watch[i] != [] && Text.IsTrimmed(watch[i]) && ',' !in watch[i]
    ensures env.Some? && env.value != "" ==> watch == WatchFrom(env.value)
    ensures env.None? || env == Some("") ==> watch == WatchFrom(DefaultWatchSymbols)
  {
    WatchFrom(if env.Some? && env.value != "" then env.value else DefaultWatchSymbols)
  }

  /** The watch list holds exactly the non-blank comma-separated names, trimmed. */
  lemma ParseWatchNames(raw: string, name: string)
    ensures name in WatchFrom(raw)
        <==> name != [] && exists k :: 0 <= k < |Text.Split(raw, ',')| && name == Text.Trim(Text.Split(raw, ',')[k])
  {
    var parts := Text.Split(raw, ',');
    var trimmed := TrimAll(parts);
    NonEmptyMembers(trimmed);
    if name in WatchFrom(raw) {
      assert name in trimmed;
      var k :| 0 <= k < |trimmed| && trimmed[k] == name;
    }
  }

  lemma {:induction false} NonEmptyKeepsAll(names: seq<string>)
    requires forall i :: 0 <= i < |names| ==> names[i] != []
    ensures NonEmpty(names) == names
  {
    if names != [] {
      NonEmptyKeepsAll(names[..|names| - 1]);
      assert names[..|names| - 1] + [names[|names| - 1]] == names;
    }
  }

  /** Formatting a list of clean names and parsing it back gives the same list, in order. */
  lemma ParseWatchJoin(names: seq<string>)
    requires |names| >= 1
    requires forall i :: 0 <= i < |names| ==> names[i] != [] && Text.IsTrimmed(names[i]) && ',' !in names[i]
    ensures WatchFrom(Text.Join(names, ',')) == names
  {
    Text.SplitJoin(names, ',');
    TrimAllOfTrimmed(names);
    NonEmptyKeepsAll(names);
  }

  lemma TrimAllOfTrimmed(names: seq<string>)
    requires forall i :: 0 <= i < |names| ==> Text.IsTrimmed(names[i])
    ensures TrimAll(names) == names
  {
    forall i | 0 <= i < |names| ensures Text.Trim(names[i]) == names[i] {
      Text.TrimOfTrimmed(names[i]);
    }
  }

  /** The start/next mode: `(m.mode || 'normal').toLowerCase()`. */
  function RequestMode(mode: Option<string>): (r: string)
    ensures mode.None? || mode == Some("") ==> r == NormalMode
    ensures mode.Some? && mode.value != "" ==> r == Text.ToLower(mode.value)
    ensures forall i :: 0 <= i < |r| ==> !Text.IsUpper(r[i])
  {
    Text.ToLower(if mode.Some? && mode.value != "" then mode.value else NormalMode)
  }

  /** Normalising a mode twice changes nothing: a normalised mode is already lower-case and non-empty. */
  lemma RequestModeStable(mode: Option<string>)
    ensures RequestMode(Some(RequestMode(mode))) == RequestMode(mode)
  {
    var given := if mode.Some? && mode.value != "" then mode.value else NormalMode;
    Text.ToLowerIdempotent(given);
    assert |RequestMode(mode)| == |given| > 0;
  }

  /** The start/next pair: the trimmed request pair, or WATCH[0] when that is blank (absent if WATCH is empty). */
  function RequestPair(pair: Option<string>, watch: seq<string>): (r: Option<string>)
    ensures var given := if pair.Some? then pair.value else "";
      && (Text.AllSpace(given) ==> r == (if |watch| > 0 then Some(watch[0]) else None))
      && (!Text.AllSpace(given) ==> r == Some(Text.Trim(given)) && Text.Trim(given) != [] && Text.IsTrimmed(r.value))
  {
    var given := if pair.Some? then pair.value else "";
    var p := Text.Trim(given);
    Text.TrimEmptyIff(given);
    if p != "" then Some(p) else if |watch| > 0 then Some(watch[0]) else None
  }

  datatype Reply = SignalReply(signal: Signal) | HoldReply(pair: Option<string>, reason: string)

  const NoConfirmedOpportunity := "No confirmed opportunity now \U{2014} hold"
  const NoSuitableMarket := "No suitable market now"

  /** The reply to a start/next request: the signal, or a hold whose reason falls back to a fixed string. */
  function StartReply(pair: Option<string>, res: Outcome): (reply: Reply)
    ensures res.Signalled? ==> reply == SignalReply(res.signal)
    ensures res.Held? ==> (reply.HoldReply? && reply.pair == pair
      && reply.reason == (if res.reason != "" then res.reason else NoConfirmedOpportunity))
  {
    match res
    case Signalled(s) => SignalReply(s)
    case Held(reason) => HoldReply(pair, if reason != "" then reason else NoConfirmedOpportunity)
  }

  /**
   * The reply for a resolved pair and mode. With an empty WATCH the pair stays undefined and
   * the adapter's call on it raises, which the engine reports as an adapter error.
   */
  function StartFor(p: Option<string>, m: string, fetched: AdapterResult, cfg: EngineConfig, nowMs: int): Reply {
    if p.None? then StartReply(None, Held(AdapterError))
    else StartReply(p, ComputeSignalForPair(p.value, m, fetched, cfg, nowMs))
  }

  /** A start/next request end to end: normalise the pair and the mode, then evaluate. */
  function HandleStart(pair: Option<string>, mode: Option<string>, watch: seq<string>,
                       fetched: AdapterResult, cfg: EngineConfig, nowMs: int): (reply: Reply)
    ensures RequestPair(pair, watch).None? ==> reply == HoldReply(None, AdapterError)
    ensures reply.HoldReply? ==> reply.pair == RequestPair(pair, watch)
  {
    StartFor(RequestPair(pair, watch), RequestMode(mode), fetched, cfg, nowMs)
  }

  /** The fixed fallback never shows: every engine hold carries its own reason, passed on verbatim. */
  lemma StartHoldKeepsReason(pair: Option<string>, mode: Option<string>, watch: seq<string>,
                             fetched: AdapterResult, cfg: EngineConfig, nowMs: int)
    ensures var reply := HandleStart(pair, mode, watch, fetched, cfg, nowMs);
      reply.HoldReply? ==> reply.reason != NoConfirmedOpportunity && reply.pair == RequestPair(pair, watch)
  {
    StartForKeepsReason(RequestPair(pair, watch), RequestMode(mode), fetched, cfg, nowMs);
  }

  /**
   * A start/next request replies with the engine's outcome for the normalised pair and mode:
   * its signal verbatim, or a hold naming that pair with the engine's reason.
   */
  lemma HandleStartReply(pair: Option<string>, mode: Option<string>, watch: seq<string>,
                         fetched: AdapterResult, cfg: EngineConfig, nowMs: int)
    ensures var p := RequestPair(pair, watch);
      var reply := HandleStart(pair, mode, watch, fetched, cfg, nowMs);
      p.Some? ==>
        var res := ComputeSignalForPair(p.value, RequestMode(mode), fetched, cfg, nowMs);
        && (res.Signalled? ==> reply == SignalReply(res.signal))
        && (res.Held? ==> reply == HoldReply(p, res.reason))
  {
    var p := RequestPair(pair, watch);
    if p.Some? {
      StartForHold(p.value, RequestMode(mode), fetched, cfg, nowMs);
    }
  }

  /** `StartHoldKeepsReason` for a resolved pair and mode. */
  lemma StartForKeepsReason(p: Option<string>, m: string, fetched: AdapterResult, cfg: EngineConfig, nowMs: int)
    ensures var reply := StartFor(p, m, fetched, cfg, nowMs);
      reply.HoldReply? ==> reply.reason != NoConfirmedOpportunity && reply.pair == p
  {
    if p.Some? {
      StartForHold(p.value, m, fetched, cfg, nowMs);
    }
  }

  /** For a resolved pair, a hold reply is the engine's own hold for that pair and mode, and a signal reply its signal. */
  lemma StartForHold(p: string, m: string, fetched: AdapterResult, cfg: EngineConfig, nowMs: int)
    ensures var res := ComputeSignalForPair(p, m, fetched, cfg, nowMs);
      var reply := StartFor(Some(p), m, fetched, cfg, nowMs);
      && (res.Held? ==> reply == HoldReply(Some(p), res.reason) && res.reason != NoConfirmedOpportunity)
      && (res.Signalled? ==> reply == SignalReply(res.signal))
  {
    var res := ComputeSignalForPair(p, m, fetched, cfg, nowMs);
    HoldReasons(p, m, fetched, cfg, nowMs);
    EngineReasonIsNotFallback(Some(p), res);
  }

  /** None of the engine's hold reasons is the fallback string, so a hold reply repeats the engine's reason. */
  lemma EngineReasonIsNotFallback(p: Option<string>, res: Outcome)
    requires res.Held? ==> (res.reason == AdapterError || res.reason == NotEnoughCandles
                            || res.reason == StrategyCore.InsufficientLayers || IsLowConfidenceReason(res.reason))
    ensures res.Held? ==> StartReply(p, res) == HoldReply(p, res.reason) && res.reason != NoConfirmedOpportunity
  {
    if res.Held? {
      assert res.reason != "";
      assert res.reason[0] != NoConfirmedOpportunity[0] by {
        if IsLowConfidenceReason(res.reason) { assert res.reason[0] == LowConfidencePrefix[0]; }
      }
    }
  }

  /** The auto-pick mode: `m.mode || 'normal'`, not lower-cased. */
  function AutoPickMode(mode: Option<string>): (r: string)
    ensures mode.None? || mode == Some("") ==> r == NormalMode
    ensures mode.Some? && mode.value != "" ==> r == mode.value
  {
    if mode.Some? && mode.value != "" then mode.value else NormalMode
  }

  /**
   * Position `i` holds the pass's pick: a signal whose confidence no other signal exceeds,
   * and that every signal before it falls strictly short of.
   */
  ghost predicate FirstBest(rs: seq<Outcome>, i: int) {
    && 0 <= i < |rs| && rs[i].Signalled?
    && (forall j :: 0 <= j < |rs| && rs[j].Signalled? ==> rs[j].signal.confidence <= rs[i].signal.confidence)
    && (forall j :: 0 <= j < i && rs[j].Signalled? ==> rs[j].signal.confidence < rs[i].signal.confidence)
  }

  /** Over the outcomes seen so far: `best` is absent iff all of them held, else it is their first best, at `at`. */
  ghost predicate BestSoFar(seen: seq<Outcome>, best: Option<Signal>, at: int) {
    && (best.None? <==> forall j :: 0 <= j < |seen| ==> seen[j].Held?)
    && (best.Some? ==> FirstBest(seen, at) && seen[at] == Signalled(best.value))
  }

  /** One turn of the loop keeps `BestSoFar`: a strictly higher confidence replaces the best, a tie does not. */
  lemma PickStep(seen: seq<Outcome>, r: Outcome, best: Option<Signal>, at: int)
    requires BestSoFar(seen, best, at)
    ensures var better := r.Signalled? && (best.None? || r.signal.confidence > best.value.confidence);
      BestSoFar(seen + [r], if better then Some(r.signal) else best, if better then |seen| else at)
  {
    var next := seen + [r];
    assert forall j :: 0 <= j < |seen| ==> next[j] == seen[j];
    assert next[|seen|] == r;
    var better := r.Signalled? && (best.None? || r.signal.confidence > best.value.confidence);
    if better {
      assert FirstBest(next, |seen|);
    } else if best.Some? {
      assert FirstBest(next, at);
    }
  }

  /** The auto-pick loop: keep the first signal of highest confidence across WATCH; `None` when every pair holds. */
  method AutoPick(watch: seq<string>, mode: Option<string>, feeds: seq<AdapterResult>, cfg: EngineConfig, nowMs: int)
    returns (best: Option<Signal>)
    requires |feeds| == |watch|
    ensures var rs := PassResults(watch, feeds, AutoPickMode(mode), cfg, nowMs);
      best.None? <==> forall i :: 0 <= i < |rs| ==> rs[i].Held?
    ensures var rs := PassResults(watch, feeds, AutoPickMode(mode), cfg, nowMs);
      best.Some? ==> exists i :: FirstBest(rs, i) && rs[i] == Signalled(best.value)
  {
    var m := AutoPickMode(mode);
    ghost var seen: seq<Outcome> := [];
    ghost var at := 0;
    best := None;
    for i := 0 to |watch|
      invariant seen == PassResults(watch[..i], feeds[..i], m, cfg, nowMs)
      invariant BestSoFar(seen, best, at)
    {
      var r := ComputeSignalForPair(watch[i], m, feeds[i], cfg, nowMs);
      PickStep(seen, r, best, at);
      if r.Signalled? {
        if best.None? || r.signal.confidence > best.value.confidence {
          best := Some(r.signal);
          at := |seen|;
        }
      }
      PassResultsExtend(watch, feeds, m, cfg, nowMs, i);
      seen := seen + [r];
    }
    assert watch[..|watch|] == watch && feeds[..|feeds|] == feeds;
  }

  /** The pick is unique: two positions that both qualify are the same position. */
  lemma FirstBestUnique(rs: seq<Outcome>, i: int, k: int)
    requires FirstBest(rs, i) && FirstBest(rs, k)
    ensures i == k
  {
  }

  /** The auto-pick reply: the picked signal, or a hold 'No suitable market now' without a pair. */
  function AutoPickReply(best: Option<Signal>): (reply: Reply)
    ensures best.None? <==> reply == HoldReply(None, NoSuitableMarket)
    ensures best.Some? ==> reply == SignalReply(best.value)
  {
    if best.None? then HoldReply(None, NoSuitableMarket) else SignalReply(best.value)
  }
}
