/** The page-side audio manager: its worker, preloaded elements, audio
    context and initialised flag, and the cue delivery chain that tries its
    playback strategies in a fixed order and then vibrates. Which platform
    features exist and how each strategy turns out are inputs. */
module AudioManager {
  import Options
  import AudioWorker

  type Option<T> = Options.Option<T>

  datatype Strategy = ServiceWorkerRelay | WorkerRelay | PreloadedElement | FreshElement | DirectWebAudio

  /** What initialize finds: an AudioContext it can construct, a worker it can
      start, and whether registering the page event handlers goes through. */
  datatype Platform = Platform(audioContextAvailable: bool, workerCreated: bool, handlersRegistered: bool)

  /** How one playAudio call turns out: whether a service worker controls
      the page and what it replies within the second (None: no reply in
      time); whether posting to the worker, the preloaded element, a fresh
      element and direct decoding succeed; whether the device can vibrate. */
  datatype Outcomes = Outcomes(serviceWorkerController: bool, serviceWorkerReply: Option<bool>,
                               workerPostOk: bool, preloadedPlays: bool, freshPlays: bool,
                               webAudioPlays: bool, vibrateSupported: bool)

  /** The string `includes` test. */
  function Contains(s: string, sub: string): bool
    decreases |s|
  {
    if |s| < |sub| then false else s[..|sub|] == sub || (|s| > 0 && Contains(s[1..], sub))
  }

  ghost predicate OccursAt(s: string, sub: string, i: int) {
    0 <= i && i + |sub| <= |s| && s[i..i + |sub|] == sub
  }

  /** Contains holds exactly when sub occurs at some position of s. */
  lemma {:induction false} ContainsIffOccurs(s: string, sub: string)
    ensures Contains(s, sub) <==> exists i :: OccursAt(s, sub, i)
    decreases |s|
  {
    if |s| >= |sub| {
      if s[..|sub|] == sub {
        assert OccursAt(s, sub, 0);
      } else if |s| > 0 {
        ContainsIffOccurs(s[1..], sub);
        if Contains(s[1..], sub) {
          var i :| OccursAt(s[1..], sub, i);
          assert s[i + 1..i + 1 + |sub|] == s[1..][i..i + |sub|];
          assert OccursAt(s, sub, i + 1);
        }
        if exists i :: OccursAt(s, sub, i) {
          var i :| OccursAt(s, sub, i);
          assert i != 0;
          assert s[1..][i - 1..i - 1 + |sub|] == s[i..i + |sub|];
          assert OccursAt(s[1..], sub, i - 1);
        }
      }
    }
  }

  /** A name without the first character of sub does not contain sub. */
  lemma {:induction false} MissingLetter(s: string, sub: string)
    requires |sub| > 0 && sub[0] !in s
    ensures !Contains(s, sub)
    decreases |s|
  {
    if |s| >= |sub| {
      assert s[0] != sub[0];
      if |s| > 0 {
        MissingLetter(s[1..], sub);
      }
    }
  }

  ghost predicate Occurs(s: string, sub: string) {
    exists i :: OccursAt(s, sub, i)
  }

  /** The vibration pattern for a cue, chosen by the first of 'run', 'walk',
      'complete' the name contains. */
  function VibrationPattern(fileName: string): (p: seq<nat>)
    ensures Occurs(fileName, "run") ==> p == [200]
    ensures !Occurs(fileName, "run") && Occurs(fileName, "walk") ==> p == [200, 100, 200]
    ensures !Occurs(fileName, "run") && !Occurs(fileName, "walk") && Occurs(fileName, "complete") ==>
              p == [500, 200, 500, 200, 500]
  {
    ContainsIffOccurs(fileName, "run");
    ContainsIffOccurs(fileName, "walk");
    ContainsIffOccurs(fileName, "complete");
    if Contains(fileName, "run") then [200]
    else if Contains(fileName, "walk") then [200, 100, 200]
    else if Contains(fileName, "complete") then [500, 200, 500, 200, 500]
    else []
  }

  /** The run cue gets one pulse, with or without the './' prefix. */
  lemma RunPattern()
    ensures VibrationPattern("run.mp3") == [200] && VibrationPattern("./run.mp3") == [200]
  {
    assert "run.mp3"[..3] == "run";
    ContainsIffOccurs("./run.mp3", "run");
    assert OccursAt("./run.mp3", "run", 2);
  }

  /** The walk cue gets two pulses. */
  lemma WalkPattern()
    ensures VibrationPattern("./walk.mp3") == [200, 100, 200]
  {
    MissingLetter("./walk.mp3", "run");
    ContainsIffOccurs("./walk.mp3", "walk");
    assert OccursAt("./walk.mp3", "walk", 2);
  }

  /** The complete cue gets three long pulses. */
  lemma CompletePattern(fileName: string)
    requires fileName == "./complete.mp3"
    ensures VibrationPattern(fileName) == [500, 200, 500, 200, 500]
  {
    MissingLetter(fileName, "run");
    MissingLetter(fileName, "walk");
    assert fileName[2..][..8] == "complete";
    assert Contains(fileName[2..], "complete");
    assert fileName[1..][1..] == fileName[2..];
    assert Contains(fileName[1..], "complete");
  }

  /** The pattern is empty exactly for the names that contain none of the
      three words. */
  lemma OtherNamesGetNoPulses(fileName: string)
    ensures VibrationPattern(fileName) == []
        <==> !Occurs(fileName, "run") && !Occurs(fileName, "walk") && !Occurs(fileName, "complete")
  {
    ContainsIffOccurs(fileName, "run");
    ContainsIffOccurs(fileName, "walk");
    ContainsIffOccurs(fileName, "complete");
  }

  /** h in front of rest when b holds. */
  function Prepend(b: bool, h: (Strategy, bool), rest: seq<(Strategy, bool)>): seq<(Strategy, bool)> {
    if b then [h] + rest else rest
  }

  /** The number the strategy has in the delivery order. */
  function Rank(s: Strategy): nat {
    match s
    case ServiceWorkerRelay => 1
    case WorkerRelay => 2
    case PreloadedElement => 3
    case FreshElement => 4
    case DirectWebAudio => 5
  }

  /** Whether the non-relay path offers a strategy, and how it turns out. */
  predicate Offered(s: Strategy, hasWorker: bool, preloaded: bool, hasContext: bool) {
    match s
    case ServiceWorkerRelay => false
    case WorkerRelay => hasWorker
    case PreloadedElement => preloaded
    case FreshElement => true
    case DirectWebAudio => hasContext
  }

  function OutcomeOf(s: Strategy, o: Outcomes): bool {
    match s
    case ServiceWorkerRelay => o.serviceWorkerReply == Options.Some(true)
    case WorkerRelay => o.workerPostOk
    case PreloadedElement => o.preloadedPlays
    case FreshElement => o.freshPlays
    case DirectWebAudio => o.webAudioPlays
  }

  /** The strategies 2 to 5 the non-relay path may try, in order, each with
      its outcome: the worker relay when there is a worker, the preloaded
      element when the name has one, always a fresh element, and direct
      decoding when there is a context. */
  function Candidates(hasWorker: bool, preloaded: bool, hasContext: bool, o: Outcomes): (c: seq<(Strategy, bool)>)
    ensures forall i, j :: 0 <= i < j < |c| ==> Rank(c[i].0) < Rank(c[j].0)
    ensures forall i :: 0 <= i < |c| ==> Offered(c[i].0, hasWorker, preloaded, hasContext) && c[i].1 == OutcomeOf(c[i].0, o)
    ensures forall s :: Offered(s, hasWorker, preloaded, hasContext) ==> (s, OutcomeOf(s, o)) in c
  {
    Prepend(hasWorker, (WorkerRelay, o.workerPostOk),
      Prepend(preloaded, (PreloadedElement, o.preloadedPlays),
        Prepend(true, (FreshElement, o.freshPlays),
          Prepend(hasContext, (DirectWebAudio, o.webAudioPlays), []))))
  }

  /** Try candidates in order until one succeeds. */
  function TryInOrder(c: seq<(Strategy, bool)>): seq<Strategy>
    decreases |c|
  {
    if c == [] then [] else [c[0].0] + (if c[0].1 then [] else TryInOrder(c[1..]))
  }

  ghost predicate SomeSucceeds(c: seq<(Strategy, bool)>) {
    exists i :: 0 <= i < |c| && c[i].1
  }

  /** The attempts are a prefix of the candidates; every attempt but the last
      failed; the last succeeded exactly when some candidate can; and when
      none can, all were attempted. */
  lemma {:induction false} TryInOrderSpec(c: seq<(Strategy, bool)>)
    ensures |TryInOrder(c)| <= |c|
    ensures forall i :: 0 <= i < |TryInOrder(c)| ==> TryInOrder(c)[i] == c[i].0
    ensures forall i :: 0 <= i < |TryInOrder(c)| - 1 ==> !c[i].1
    ensures SomeSucceeds(c) <==> (TryInOrder(c) != [] && c[|TryInOrder(c)| - 1].1)
    ensures !SomeSucceeds(c) ==> |TryInOrder(c)| == |c|
    decreases |c|
  {
    if c != [] {
      TryInOrderSpec(c[1..]);
      TryFirst(c[0], c[1..]);
      assert [c[0]] + c[1..] == c;
    }
  }

  /** One step of the chain: the head is attempted, and the rest only when it fails. */
  lemma TryFirst(h: (Strategy, bool), rest: seq<(Strategy, bool)>)
    ensures TryInOrder([h] + rest) == [h.0] + (if h.1 then [] else TryInOrder(rest))
    ensures SomeSucceeds([h] + rest) <==> h.1 || SomeSucceeds(rest)
  {
    var c := [h] + rest;
    assert c[1..] == rest;
    if SomeSucceeds(c) && !h.1 {
      var i :| 0 <= i < |c| && c[i].1;
      assert rest[i - 1].1;
    }
    if SomeSucceeds(rest) {
      var i :| 0 <= i < |rest| && rest[i].1;
      assert c[i + 1].1;
    }
  }

  /** A worker that takes the message makes the relay the only attempt and
      reports success, whatever the later strategies would have done. */
  lemma WorkerShadowsLaterStrategies(preloaded: bool, hasContext: bool, o: Outcomes)
    requires o.workerPostOk
    ensures TryInOrder(Candidates(true, preloaded, hasContext, o)) == [WorkerRelay]
    ensures SomeSucceeds(Candidates(true, preloaded, hasContext, o))
  {
    var rest := (if preloaded then [(PreloadedElement, o.preloadedPlays)] else [])
      + [(FreshElement, o.freshPlays)]
      + (if hasContext then [(DirectWebAudio, o.webAudioPlays)] else []);
    assert Candidates(true, preloaded, hasContext, o) == [(WorkerRelay, o.workerPostOk)] + rest;
    TryFirst((WorkerRelay, o.workerPostOk), rest);
  }

  /** The fresh element is always a candidate, so the chain is never empty. */
  lemma FreshElementAlwaysTried(hasWorker: bool, preloaded: bool, hasContext: bool, o: Outcomes)
    requires !(hasWorker && o.workerPostOk) && !(preloaded && o.preloadedPlays)
    ensures FreshElement in TryInOrder(Candidates(hasWorker, preloaded, hasContext, o))
  {
    var c := Candidates(hasWorker, preloaded, hasContext, o);
    var k := (if hasWorker then 1 else 0) + (if preloaded then 1 else 0);
    assert c[k] == (FreshElement, o.freshPlays);
    TryInOrderSpec(c);
    forall i | 0 <= i < k
      ensures !c[i].1
    {
    }
    if SomeSucceeds(c) {
      assert c[|TryInOrder(c)| - 1].1;
    }
    assert |TryInOrder(c)| > k;
    assert TryInOrder(c)[k] == FreshElement;
  }

  /** One delivery: the strategies attempted in order, the reported outcome,
      and the vibration pattern issued, if any. */
  datatype Delivery = Delivery(attempted: seq<Strategy>, success: bool, vibration: Option<seq<nat>>)

  /** handleVibration: a pattern is issued only where the device can vibrate. */
  function HandleVibration(fileName: string, vibrateSupported: bool): Option<seq<nat>> {
    if vibrateSupported then Options.Some(VibrationPattern(fileName)) else Options.None
  }

  /** The worker's messages as the manager handles them: VIBRATE issues the
      pattern for its file, anything else is ignored. */
  function OnWorkerMessage(m: AudioWorker.WorkerMessage, vibrateSupported: bool): Option<seq<nat>> {
    match m
    case Vibrate(fileName, _) => HandleVibration(fileName, vibrateSupported)
    case AudioInitialized(_) => Options.None
  }

  /** Strategies 2 to 5 of playAudio: each is attempted only while nothing
      has succeeded and its precondition holds (a worker, a preloaded
      element for the name, nothing for a fresh element, a context). */
  method TryStrategies(w: bool, pre: bool, ctx: bool, o: Outcomes) returns (attempted: seq<Strategy>, success: bool)
    ensures attempted == TryInOrder(Candidates(w, pre, ctx, o))
    ensures success == SomeSucceeds(Candidates(w, pre, ctx, o))
  {
    // rest2 to rest5: the candidates from strategy 2, 3, 4 and 5 on.
    ghost var rest5 := Prepend(ctx, (DirectWebAudio, o.webAudioPlays), []);
    ghost var rest4 := Prepend(true, (FreshElement, o.freshPlays), rest5);
    ghost var rest3 := Prepend(pre, (PreloadedElement, o.preloadedPlays), rest4);
    ghost var c := Prepend(w, (WorkerRelay, o.workerPostOk), rest3);
    success := false;
    attempted := [];
    assert attempted + [] == attempted;
    if !success && w {
      Step(c, attempted, (WorkerRelay, o.workerPostOk), rest3);
      attempted := attempted + [WorkerRelay];
      success := o.workerPostOk;
    }
    Advance(c, attempted, success, w, (WorkerRelay, o.workerPostOk), rest3);
    if !success && pre {
      Step(c, attempted, (PreloadedElement, o.preloadedPlays), rest4);
      attempted := attempted + [PreloadedElement];
      success := o.preloadedPlays;
    }
    Advance(c, attempted, success, pre, (PreloadedElement, o.preloadedPlays), rest4);
    if !success {
      Step(c, attempted, (FreshElement, o.freshPlays), rest5);
      attempted := attempted + [FreshElement];
      success := o.freshPlays;
    }
    Advance(c, attempted, success, true, (FreshElement, o.freshPlays), rest5);
    if !success && ctx {
      Step(c, attempted, (DirectWebAudio, o.webAudioPlays), []);
      attempted := attempted + [DirectWebAudio];
      success := o.webAudioPlays;
    }
    Advance(c, attempted, success, ctx, (DirectWebAudio, o.webAudioPlays), []);
    Finish(c, attempted, success);
  }

  /** The chain so far: attempted then, unless something succeeded, what
      trying rest gives, adds up to TryInOrder(c), and c has a success
      exactly when the chain has one or rest does. */
  ghost predicate Progress(c: seq<(Strategy, bool)>, attempted: seq<Strategy>, success: bool, rest: seq<(Strategy, bool)>) {
    TryInOrder(c) == attempted + (if success then [] else TryInOrder(rest))
    && (SomeSucceeds(c) <==> success || SomeSucceeds(rest))
  }

  /** Trying the head h of the remaining candidates. */
  lemma Step(c: seq<(Strategy, bool)>, attempted: seq<Strategy>, h: (Strategy, bool), rest: seq<(Strategy, bool)>)
    requires Progress(c, attempted, false, [h] + rest)
    ensures Progress(c, attempted + [h.0], h.1, rest)
  {
    TryFirst(h, rest);
    assert attempted + ([h.0] + (if h.1 then [] else TryInOrder(rest)))
        == (attempted + [h.0]) + (if h.1 then [] else TryInOrder(rest));
  }

  /** After a step that either ran or was skipped, the chain goes on with rest. */
  lemma Advance(c: seq<(Strategy, bool)>, attempted: seq<Strategy>, success: bool, b: bool,
                h: (Strategy, bool), rest: seq<(Strategy, bool)>)
    requires Progress(c, attempted, success, rest)
          || ((success || !b) && Progress(c, attempted, success, Prepend(b, h, rest)))
    ensures Progress(c, attempted, success, rest)
  {
  }

  lemma Finish(c: seq<(Strategy, bool)>, attempted: seq<Strategy>, success: bool)
    requires Progress(c, attempted, success, [])
    ensures TryInOrder(c) == attempted && (SomeSucceeds(c) <==> success)
  {
    assert attempted + [] == attempted;
  }


  /** The names the constructor preloads an element for. */
  const PreloadedFiles: set<string> := {"run.mp3", "walk.mp3", "complete.mp3"}

  class Manager {
    var hasWorker: bool
    /** Names that have a preloaded element. */
    var audioElements: set<string>
    var isInitialized: bool
    var hasAudioContext: bool

    /** The constructor preloads an element for each cue file. */
    constructor ()
      ensures audioElements == PreloadedFiles
      ensures !hasWorker && !isInitialized && !hasAudioContext
    {
      hasWorker, isInitialized, hasAudioContext := false, false, false;
      audioElements := PreloadedFiles;
    }

    /** initialize: once initialised it answers true and does nothing more.
        Otherwise each setup step swallows its own failure: a context when
        one can be constructed, a worker when one starts; the flag is set and
        true returned once the event handlers are registered. */
    method Initialize(p: Platform) returns (ok: bool)
      modifies this
      ensures old(isInitialized) ==> ok && isInitialized && hasWorker == old(hasWorker) && hasAudioContext == old(hasAudioContext)
      ensures !old(isInitialized) ==> ok == p.handlersRegistered && isInitialized == p.handlersRegistered
      ensures !old(isInitialized) ==> hasAudioContext == (old(hasAudioContext) || p.audioContextAvailable)
      ensures !old(isInitialized) ==> hasWorker == (old(hasWorker) || p.workerCreated)
      ensures audioElements == old(audioElements)
    {
      if isInitialized {
        return true;
      }
      if p.audioContextAvailable {
        hasAudioContext := true;
      }
      if p.workerCreated {
        hasWorker := true;
      }
      if !p.handlersRegistered {
        return false;
      }
      isInitialized := true;
      ok := true;
    }

    /** playAudio. It initialises first when needed. With a service worker
        controlling the page it returns that worker's reply (false on
        timeout) and does nothing else. Otherwise it tries strategies 2 to 5
        in order while nothing has succeeded, always vibrates afterwards, and
        reports whether some strategy succeeded. */
    method PlayAudio(fileName: string, p: Platform, o: Outcomes) returns (d: Delivery)
      modifies this
      ensures !old(isInitialized) ==>
        hasAudioContext == (old(hasAudioContext) || p.audioContextAvailable)
        && hasWorker == (old(hasWorker) || p.workerCreated)
        && isInitialized == p.handlersRegistered
      ensures old(isInitialized) ==> isInitialized && hasWorker == old(hasWorker) && hasAudioContext == old(hasAudioContext)
      ensures audioElements == old(audioElements)
      ensures o.serviceWorkerController ==>
        d == Delivery([ServiceWorkerRelay], o.serviceWorkerReply == Options.Some(true), Options.None)
      ensures !o.serviceWorkerController ==>
        var c := Candidates(hasWorker, fileName in audioElements, hasAudioContext, o);
        d.attempted == TryInOrder(c) && d.success == SomeSucceeds(c)
        && d.vibration == HandleVibration(fileName, o.vibrateSupported)
    {
      if !isInitialized {
        var _ := Initialize(p);
      }
      if o.serviceWorkerController {
        var reply := match o.serviceWorkerReply case Some(b) => b case None => false;
        return Delivery([ServiceWorkerRelay], reply, Options.None);
      }
      var attempted, success := TryStrategies(hasWorker, fileName in audioElements, hasAudioContext, o);
      var vibration := HandleVibration(fileName, o.vibrateSupported);
      d := Delivery(attempted, success, vibration);
    }

    /** destroy: the worker and context are dropped, the elements emptied,
        the manager uninitialised; a stop message goes to the controlling
        service worker, if any. */
    method Destroy(serviceWorkerController: bool) returns (stopSent: bool)
      modifies this
      ensures !hasWorker && !hasAudioContext && audioElements == {} && !isInitialized
      ensures stopSent == serviceWorkerController
    {
      stopSent := serviceWorkerController;
      hasWorker := false;
      hasAudioContext := false;
      audioElements := {};
      isInitialized := false;
    }
  }

  /** With the worker relay the pattern is issued twice: once at the end of
      playAudio and once more when the worker's VIBRATE message for the same
      file comes back. */
  lemma WorkerRelayVibratesTwice(fileName: string, preloaded: bool, hasContext: bool, o: Outcomes, success: bool)
    requires o.workerPostOk && o.vibrateSupported
    ensures TryInOrder(Candidates(true, preloaded, hasContext, o)) == [WorkerRelay]
    ensures HandleVibration(fileName, o.vibrateSupported) == Options.Some(VibrationPattern(fileName))
    ensures OnWorkerMessage(AudioWorker.Vibrate(fileName, success), o.vibrateSupported) == Options.Some(VibrationPattern(fileName))
  {
    WorkerShadowsLaterStrategies(preloaded, hasContext, o);
  }
}
