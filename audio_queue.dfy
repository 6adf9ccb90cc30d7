/**
 * The audio playback queue (lib/audio-queue.ts): a FIFO of clip URLs played
 * one after another through browser audio elements.
 *
 * An audio element is an opaque handle, the index of the clip in `started`
 * (the order in which elements were created). A clip settles exactly once,
 * by ending, by failing, or by having its `play()` request rejected; that
 * settlement is an event carrying the handle. `stop()` pauses the current
 * clip and clears its `onended`/`onerror` callbacks (the handle becomes
 * detached); the `play().catch` callback is never cleared.
 */
module AudioPlayback {
  import opened Types

  datatype Completion = Ended | Errored | PlayRejected

  datatype Event =
    | EnqueueUrl(url: string)
    | StopPlayback
    | ClearQueue
    | Complete(handle: nat, kind: Completion)

  /**
   * The queue's fields plus the audio elements it created: `started` holds
   * each element's URL, `completed` the elements that have settled,
   * `detached` the elements whose callbacks `stop()` cleared.
   */
  datatype Player = Player(
    queue: seq<string>,
    current: Option<nat>,
    playing: bool,
    started: seq<string>,
    completed: set<nat>,
    detached: set<nat>)

  function Idle(): Player {
    Player([], None, false, [], {}, {})
  }

  /** A clip is audible when it was started and has neither settled nor been paused by `stop()`. */
  predicate Audible(p: Player, h: nat) {
    h < |p.started| && h !in p.completed && h !in p.detached
  }

  /**
   * The queue's invariant: `playing` exactly when there is a current clip,
   * the current clip is the newest and still audible, and no other clip is
   * audible.
   */
  ghost predicate Valid(p: Player) {
    && (p.playing <==> p.current.Some?)
    && (p.current.Some? ==> p.current.value == |p.started| - 1 && Audible(p, p.current.value))
    && (forall h: nat :: h < |p.started| && p.current != Some(h) ==> h in p.completed || h in p.detached)
    && (forall h :: h in p.completed ==> h < |p.started|)
    && (forall h :: h in p.detached ==> h < |p.started|)
  }

  /** playNext: take the head URL; an empty queue or an empty URL leaves the queue idle. */
  function Advance(p: Player): (r: Player)
    ensures r.playing <==> p.queue != [] && p.queue[0] != ""
    ensures r.playing ==> r.current == Some(|p.started|) && r.started == p.started + [p.queue[0]] && r.queue == p.queue[1..]
    ensures !r.playing ==> r.current == None && r.started == p.started && r.queue == if p.queue == [] then [] else p.queue[1..]
    ensures r.completed == p.completed && r.detached == p.detached
  {
    if p.queue == [] then p.(playing := false, current := None)
    else if p.queue[0] == "" then p.(queue := p.queue[1..], playing := false, current := None)
    else p.(queue := p.queue[1..], playing := true, current := Some(|p.started|), started := p.started + [p.queue[0]])
  }

  /** The environment only settles a clip that exists and has not settled yet. */
  predicate Enabled(p: Player, e: Event) {
    e.Complete? ==> e.handle < |p.started| && e.handle !in p.completed
  }

  /**
   * One event, with every settlement of a detached clip ignored: the
   * behaviour the callbacks' clearing in `stop()` is meant to give.
   */
  function Step(p: Player, e: Event): (r: Player)
    ensures p.started <= r.started && |r.started| <= |p.started| + 1
    ensures r.completed == if e.Complete? then p.completed + {e.handle} else p.completed
    ensures e.Complete? && e.handle in p.detached ==> r.started == p.started && r.current == p.current
  {
    match e
    case EnqueueUrl(url) =>
      var q := p.(queue := p.queue + [url]);
      if !p.playing then Advance(q) else q
    case StopPlayback =>
      var q := if p.current.Some? then p.(detached := p.detached + {p.current.value}) else p;
      q.(queue := [], current := None, playing := false)
    case ClearQueue =>
      p.(queue := [])
    case Complete(h, _) =>
      var q := p.(completed := p.completed + {h});
      if h in p.detached then q else Advance(q)
  }

  /** One event as the source is written: the `play().catch` callback advances even after `stop()`. */
  function StepAsWritten(p: Player, e: Event): (r: Player)
    ensures p.started <= r.started && |r.started| <= |p.started| + 1
    ensures r.completed == if e.Complete? then p.completed + {e.handle} else p.completed
    ensures e.Complete? && e.kind != PlayRejected && e.handle in p.detached ==> r.started == p.started && r.current == p.current
  {
    if e.Complete? && e.kind == PlayRejected then Advance(p.(completed := p.completed + {e.handle}))
    else Step(p, e)
  }

  /** The two steps differ only on a rejected play request of a clip that `stop()` detached. */
  lemma AsWrittenDiffersOnlyOnStaleRejection(p: Player, e: Event)
    ensures StepAsWritten(p, e) != Step(p, e) ==>
      e.Complete? && e.kind == PlayRejected && e.handle in p.detached
  {
  }

  /**
   * Under the invariant the current clip is never detached, so its
   * settlement steps the same as written and as intended: the draining
   * lemmas below hold of the queue object as it is written.
   */
  lemma CurrentCompletionAsWritten(p: Player, kind: Completion)
    requires Valid(p) && p.current.Some?
    ensures StepAsWritten(p, Complete(p.current.value, kind)) == Step(p, Complete(p.current.value, kind))
    ensures FinishCurrent(p) == StepAsWritten(p, Complete(p.current.value, Ended))
  {
  }

  /** Every event keeps the invariant. */
  lemma StepKeepsValid(p: Player, e: Event)
    requires Valid(p) && Enabled(p, e)
    ensures Valid(Step(p, e))
  {
    var r := Step(p, e);
  }

  /** Enqueueing while idle starts the URL's clip at once (when nothing waits before it); while playing it only appends. */
  lemma EnqueueStartsOrAppends(p: Player, url: string)
    requires Valid(p)
    ensures p.playing ==> Step(p, EnqueueUrl(url)) == p.(queue := p.queue + [url])
    ensures !p.playing && p.queue == [] && url != "" ==>
      var r := Step(p, EnqueueUrl(url));
      r.playing && r.current == Some(|p.started|) && r.started == p.started + [url] && r.queue == []
  {
  }

  /**
   * When the current clip settles, the head of the queue starts next, so
   * clips start in enqueue order; with nothing queued the player goes idle.
   */
  lemma CompletionStartsHead(p: Player, h: nat, kind: Completion)
    requires Valid(p) && p.current == Some(h)
    ensures p.queue != [] && p.queue[0] != "" ==>
      var r := Step(p, Complete(h, kind));
      r.playing && r.current == Some(|p.started|) && r.started == p.started + [p.queue[0]] && r.queue == p.queue[1..]
    ensures p.queue == [] ==>
      var r := Step(p, Complete(h, kind));
      !r.playing && r.current == None && r.started == p.started
  {
  }

  /** The current clip settling, if there is one. */
  function FinishCurrent(p: Player): Player {
    if p.current.Some? then Step(p, Complete(p.current.value, Ended)) else p
  }

  function FinishCurrentTimes(p: Player, n: nat): Player
    decreases n
  {
    if n == 0 then p else FinishCurrentTimes(FinishCurrent(p), n - 1)
  }

  predicate NoEmptyUrl(q: seq<string>) {
    forall i :: 0 <= i < |q| ==> q[i] != ""
  }

  /**
   * Draining: while a clip plays, letting each current clip finish plays
   * every queued URL exactly once, in enqueue order, and one more
   * completion leaves the player idle.
   */
  lemma {:induction false} QueuePlaysInOrder(p: Player)
    requires Valid(p) && p.playing && NoEmptyUrl(p.queue)
    ensures var r := FinishCurrentTimes(p, |p.queue|);
      Valid(r) && r.playing && r.queue == [] && r.started == p.started + p.queue
    ensures var r := FinishCurrentTimes(p, |p.queue| + 1);
      Valid(r) && !r.playing && r.current == None && r.started == p.started + p.queue
    decreases |p.queue|
  {
    var p' := FinishCurrent(p);
    StepKeepsValid(p, Complete(p.current.value, Ended));
    if p.queue == [] {
      assert FinishCurrentTimes(p, 1) == FinishCurrentTimes(p', 0);
    } else {
      assert p'.queue == p.queue[1..] && p'.started == p.started + [p.queue[0]];
      QueuePlaysInOrder(p');
      assert p.started + [p.queue[0]] + p.queue[1..] == p.started + p.queue;
    }
  }

  /**
   * Stop empties the queue and silences everything; the stopped clip's
   * later settlement starts nothing; and stop while idle changes nothing
   * observable.
   */
  lemma StopSilences(p: Player, kind: Completion)
    requires Valid(p)
    ensures var r := Step(p, StopPlayback);
      Valid(r) && r.queue == [] && !r.playing && r.current == None &&
      (forall h :: !Audible(r, h)) && r.started == p.started
    ensures p.current.Some? ==>
      var r := Step(p, StopPlayback);
      var h := p.current.value;
      Step(r, Complete(h, kind)) == r.(completed := r.completed + {h})
    ensures !p.playing ==> Step(p, StopPlayback) == p.(queue := [])
  {
    StepKeepsValid(p, StopPlayback);
  }

  /** Clear drops the waiting URLs only; the current clip plays on and its completion leaves the player idle. */
  lemma ClearKeepsCurrent(p: Player, kind: Completion)
    requires Valid(p)
    ensures Step(p, ClearQueue) == p.(queue := [])
    ensures p.current.Some? ==>
      var r := Step(Step(p, ClearQueue), Complete(p.current.value, kind));
      !r.playing && r.current == None && r.started == p.started
  {
  }

  /**
   * An empty URL at the head acts as the end of the queue: when the current
   * clip settles the player goes idle with the URLs behind it still waiting,
   * and the next enqueue starts the first of them.
   */
  lemma EmptyUrlHalts(p: Player, kind: Completion, rest: seq<string>, url: string)
    requires Valid(p) && p.current.Some? && p.queue == [""] + rest && rest != [] && rest[0] != ""
    ensures var r := Step(p, Complete(p.current.value, kind));
      !r.playing && r.current == None && r.queue == rest && r.started == p.started
    ensures var r := Step(Step(p, Complete(p.current.value, kind)), EnqueueUrl(url));
      r.playing && r.started == p.started + [rest[0]] && r.queue == rest[1..] + [url]
  {
    assert ([""] + rest)[1..] == rest;
    assert (rest + [url])[1..] == rest[1..] + [url];
  }

  /**
   * As written, a clip stopped while its `play()` request is pending still
   * advances the queue when that request is rejected: after stop and a new
   * enqueue, the stale rejection idles the player while the new clip plays
   * on, and the next enqueue starts a second clip beside it.
   */
  lemma StaleRejectionAsWritten()
    ensures var p1 := StepAsWritten(Idle(), EnqueueUrl("a"));
      var p2 := StepAsWritten(p1, StopPlayback);
      var p3 := StepAsWritten(p2, EnqueueUrl("b"));
      var p4 := StepAsWritten(p3, Complete(0, PlayRejected));
      var p5 := StepAsWritten(p4, EnqueueUrl("c"));
      && Valid(p3) && Enabled(p3, Complete(0, PlayRejected)) && Enabled(p4, EnqueueUrl("c"))
      && !p4.playing && Audible(p4, 1) && !Valid(p4)
      && Audible(p5, 1) && Audible(p5, 2)
  {
    var p3 := StepAsWritten(StepAsWritten(StepAsWritten(Idle(), EnqueueUrl("a")), StopPlayback), EnqueueUrl("b"));
    assert p3.started == ["a", "b"];
  }

  /** With detached clips ignored, the same events leave exactly the new clip playing. */
  lemma StaleRejectionIgnored()
    ensures var p1 := Step(Idle(), EnqueueUrl("a"));
      var p2 := Step(p1, StopPlayback);
      var p3 := Step(p2, EnqueueUrl("b"));
      var p4 := Step(p3, Complete(0, PlayRejected));
      Valid(p4) && p4.playing && p4.current == Some(1) && p4.started == ["a", "b"]
  {
    var p3 := Step(Step(Step(Idle(), EnqueueUrl("a")), StopPlayback), EnqueueUrl("b"));
    assert p3.started == ["a", "b"];
  }

  /** The settlement of a detached clip never changes what plays. */
  lemma DetachedCompletionInert(p: Player, h: nat, kind: Completion)
    requires h in p.detached
    ensures Step(p, Complete(h, kind)) == p.(completed := p.completed + {h})
  {
  }

  /**
   * The queue object; each method performs one event on its fields, as the
   * source is written: a rejected play request advances the queue even for
   * a clip that `stop()` detached.
   */
  class AudioQueue {
    var queue: seq<string>
    var current: Option<nat>
    var playing: bool
    var started: seq<string>
    ghost var completed: set<nat>
    var detached: set<nat>

    ghost function State(): Player
      reads this
    {
      Player(queue, current, playing, started, completed, detached)
    }

    constructor()
      ensures State() == Idle()
    {
      queue := [];
      current := None;
      playing := false;
      started := [];
      completed := {};
      detached := {};
    }

    method Enqueue(url: string)
      modifies this
      ensures State() == StepAsWritten(old(State()), EnqueueUrl(url))
    {
      queue := queue + [url];
      if !playing {
        PlayNext();
      }
    }

    method Stop()
      modifies this
      ensures State() == StepAsWritten(old(State()), StopPlayback)
    {
      queue := [];
      if current.Some? {
        detached := detached + {current.value};
        current := None;
      }
      playing := false;
    }

    method Clear()
      modifies this
      ensures State() == StepAsWritten(old(State()), ClearQueue)
    {
      queue := [];
    }

    method PlayNext()
      modifies this
      ensures State() == Advance(old(State()))
    {
      if queue == [] || queue[0] == "" {
        if queue != [] {
          queue := queue[1..];
        }
        playing := false;
        current := None;
        return;
      }
      var url := queue[0];
      queue := queue[1..];
      playing := true;
      current := Some(|started|);
      started := started + [url];
    }

    /**
     * The settlement callback of clip `h`: `onended`, `onerror` (both
     * cleared by `stop()`), or the `play().catch` callback, which is not.
     */
    method OnComplete(h: nat, kind: Completion)
      requires Enabled(State(), Complete(h, kind))
      modifies this
      ensures State() == StepAsWritten(old(State()), Complete(h, kind))
    {
      completed := completed + {h};
      if kind == PlayRejected || h !in detached {
        PlayNext();
      }
    }
  }
}
