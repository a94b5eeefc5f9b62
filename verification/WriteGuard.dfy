/** The write-window transport guard (apps/quoky/src/connector-write-transport.ts:43-138). */
module WriteGuard {

  /** An origin, or what `originOf` gives for an unreadable one. */
  datatype Origin = Unreadable | Origin(name: string)

  datatype Window = Window(origin: Origin, poisoned: bool)

  /** What happens in the process: windows open and close, the platform fetch publishes diagnostics. */
  datatype Event =
    | Begin(id: nat, target: Origin)
    | End(id: nat)
    | Bytes(origin: Origin)         // headers or body written to a socket
    | ConnectError(error: nat)      // an error object published as a connect-stage failure

  /** `openIds`: the windows in `openWindows`; `windows`: every window, closed ones included. */
  datatype State = State(openIds: set<nat>, windows: map<nat, Window>, published: set<nat>)

  function Init(): State {
    State({}, map[], {})
  }

  predicate Hits(bytes: Origin, target: Origin) {
    bytes.Unreadable? || bytes == target
  }

  /** The windows with those in `ids` poisoned that the bytes hit. */
  function PoisonIn(windows: map<nat, Window>, ids: set<nat>, origin: Origin): map<nat, Window> {
    map id | id in windows ::
      if id in ids && Hits(origin, windows[id].origin) then windows[id].(poisoned := true) else windows[id]
  }

  lemma PoisonOne(windows: map<nat, Window>, ids: set<nat>, origin: Origin, id: nat)
    requires id in windows && id !in ids
    ensures var so := PoisonIn(windows, ids, origin);
            && id in so && so[id] == windows[id]
            && PoisonIn(windows, ids + {id}, origin)
               == if Hits(origin, so[id].origin) then so[id := so[id].(poisoned := true)] else so
  {
    hide Hits;
  }

  function Poison(s: State, origin: Origin): State {
    s.(windows := PoisonIn(s.windows, s.openIds, origin))
  }

  /** A window is opened once: its identity is the object made by `begin`. */
  predicate Enabled(s: State, e: Event) {
    e.Begin? ==> e.id !in s.windows
  }

  function Step(s: State, e: Event): State {
    match e
    case Begin(id, target) => s.(openIds := s.openIds + {id}, windows := s.windows[id := Window(target, target.Unreadable?)])
    case End(id) => s.(openIds := s.openIds - {id})
    case Bytes(origin) => Poison(s, origin)
    case ConnectError(error) => s.(published := s.published + {error})
  }

  function After(trace: seq<Event>): State {
    if trace == [] then Init() else Step(After(trace[..|trace| - 1]), trace[|trace| - 1])
  }

  predicate Possible(trace: seq<Event>) {
    trace == [] || (Possible(trace[..|trace| - 1]) && Enabled(After(trace[..|trace| - 1]), trace[|trace| - 1]))
  }

  // ---------- What the trace says ----------

  predicate BeginsAt(trace: seq<Event>, id: nat, i: nat) {
    i < |trace| && trace[i].Begin? && trace[i].id == id
  }

  predicate EndsBetween(trace: seq<Event>, id: nat, i: nat, j: nat)
    requires j <= |trace|
  {
    exists k :: i < k < j && trace[k] == End(id)
  }

  /** Window `id`, begun at `i`, is open at `j` and sees request bytes for its origin or for an unreadable one. */
  predicate BytesSeen(trace: seq<Event>, id: nat, i: nat, j: nat)
    requires BeginsAt(trace, id, i)
  {
    i < j < |trace| && trace[j].Bytes? && Hits(trace[j].origin, trace[i].target) && !EndsBetween(trace, id, i, j)
  }

  ghost predicate SomeBytesSeen(trace: seq<Event>, id: nat, i: nat)
    requires BeginsAt(trace, id, i)
  {
    exists j: nat :: BytesSeen(trace, id, i, j)
  }

  lemma SeenLater(trace: seq<Event>, e: Event, id: nat, i: nat)
    requires BeginsAt(trace, id, i)
    ensures BeginsAt(trace + [e], id, i)
    ensures SomeBytesSeen(trace + [e], id, i)
            <==> (SomeBytesSeen(trace, id, i)
                  || (e.Bytes? && Hits(e.origin, trace[i].target) && !EndsBetween(trace, id, i, |trace|)))
  {
    var more := trace + [e];
    forall j | i < j <= |trace| ensures EndsBetween(more, id, i, j) == EndsBetween(trace, id, i, j) {
      if EndsBetween(more, id, i, j) {
        var k :| i < k < j && more[k] == End(id);
        assert trace[k] == End(id);
      }
      if EndsBetween(trace, id, i, j) {
        var k :| i < k < j && trace[k] == End(id);
        assert more[k] == End(id);
      }
    }
    if SomeBytesSeen(trace, id, i) {
      var j: nat :| BytesSeen(trace, id, i, j);
      assert BytesSeen(more, id, i, j);
    }
    if SomeBytesSeen(more, id, i) {
      var j: nat :| BytesSeen(more, id, i, j);
      if j < |trace| {
        assert BytesSeen(trace, id, i, j);
      }
    }
    if e.Bytes? && Hits(e.origin, trace[i].target) && !EndsBetween(trace, id, i, |trace|) {
      assert BytesSeen(more, id, i, |trace|);
    }
  }

  lemma EndsLater(trace: seq<Event>, e: Event, id: nat, i: nat)
    requires BeginsAt(trace, id, i)
    ensures EndsBetween(trace + [e], id, i, |trace| + 1) <==> (EndsBetween(trace, id, i, |trace|) || e == End(id))
  {
    var more := trace + [e];
    if EndsBetween(trace, id, i, |trace|) {
      var k :| i < k < |trace| && trace[k] == End(id);
      assert more[k] == End(id);
    }
    if e == End(id) {
      assert more[|trace|] == End(id);
    }
  }

  /** The state knows of a window exactly what its trace says. */
  ghost predicate Explained(trace: seq<Event>, s: State, id: nat, i: nat)
    requires BeginsAt(trace, id, i)
  {
    && id in s.windows && s.windows[id].origin == trace[i].target
    && (id in s.openIds <==> !EndsBetween(trace, id, i, |trace|))
    && (s.windows[id].poisoned <==> (trace[i].target.Unreadable? || SomeBytesSeen(trace, id, i)))
  }

  /** A window is poisoned exactly when its origin was unreadable or request bytes hit it while it was open. */
  lemma {:induction false} PoisonedExactly(trace: seq<Event>, id: nat, i: nat)
    requires Possible(trace) && BeginsAt(trace, id, i)
    ensures Explained(trace, After(trace), id, i)
    decreases |trace|
  {
    hide SomeBytesSeen, EndsBetween;
    var n := |trace| - 1;
    var before, e := trace[..n], trace[n];
    assert trace == before + [e];
    if i < n {
      assert BeginsAt(before, id, i);
      PoisonedExactly(before, id, i);
      SeenLater(before, e, id, i);
      EndsLater(before, e, id, i);
    } else {
      FreshWindow(trace, id);
    }
  }

  lemma FreshWindow(trace: seq<Event>, id: nat)
    requires trace != [] && BeginsAt(trace, id, |trace| - 1)
    ensures !SomeBytesSeen(trace, id, |trace| - 1) && !EndsBetween(trace, id, |trace| - 1, |trace|)
  {
  }

  /** Every window of the state was begun in the trace. */
  lemma {:induction false} WindowsBegun(trace: seq<Event>, id: nat) returns (i: nat)
    requires Possible(trace) && id in After(trace).windows
    ensures BeginsAt(trace, id, i)
    decreases |trace|
  {
    var n := |trace| - 1;
    if trace[n].Begin? && trace[n].id == id {
      i := n;
    } else {
      i := WindowsBegun(trace[..n], id);
    }
  }

  // ---------- Evidence ----------

  const MAX_CAUSE_DEPTH: nat := 5

  datatype Cause = NoObject | Object(error: nat)

  /** What the classifier reads of an error object: a name-resolution or egress code, a refused tunnel, its cause. */
  datatype Fault = Fault(resolutionOrEgress: bool, tunnelRefused: bool, cause: Cause)

  predicate IsEvidence(published: set<nat>, faults: nat -> Fault, error: nat) {
    error in published || faults(error).resolutionOrEgress || faults(error).tunnelRefused
  }

  /** The error `depth` causes below `c`. */
  function CauseAt(faults: nat -> Fault, c: Cause, depth: nat): Cause
    decreases depth
  {
    if depth == 0 || c.NoObject? then c else CauseAt(faults, faults(c.error).cause, depth - 1)
  }

  predicate EvidenceAt(published: set<nat>, faults: nat -> Fault, c: Cause, depth: nat) {
    var at := CauseAt(faults, c, depth);
    at.Object? && IsEvidence(published, faults, at.error)
  }

  predicate HasEvidence(published: set<nat>, faults: nat -> Fault, c: Cause) {
    exists depth :: 0 <= depth < MAX_CAUSE_DEPTH && EvidenceAt(published, faults, c, depth)
  }

  lemma {:induction false} CauseNext(faults: nat -> Fault, c: Cause, depth: nat)
    ensures CauseAt(faults, c, depth + 1)
            == (if CauseAt(faults, c, depth).NoObject? then NoObject else faults(CauseAt(faults, c, depth).error).cause)
    decreases depth
  {
    if depth > 0 && c.Object? {
      CauseNext(faults, faults(c.error).cause, depth - 1);
    }
  }

  lemma {:induction false} NoObjectBelow(faults: nat -> Fault, c: Cause, depth: nat, lower: nat)
    requires depth <= lower && CauseAt(faults, c, depth).NoObject?
    ensures CauseAt(faults, c, lower).NoObject?
    decreases lower
  {
    if depth < lower {
      NoObjectBelow(faults, c, depth, lower - 1);
      CauseNext(faults, c, lower - 1);
    }
  }

  /** The source's walk down the cause chain finds evidence exactly when one of the first five errors is evidence. */
  method HasConnectionStageEvidence(published: set<nat>, faults: nat -> Fault, error: Cause) returns (found: bool)
    ensures found == HasEvidence(published, faults, error)
  {
    hide CauseAt, IsEvidence;
    var current := error;
    var depth: nat := 0;
    StartOfChain(faults, error);
    while depth < MAX_CAUSE_DEPTH && current.Object?
      invariant depth <= MAX_CAUSE_DEPTH && current == CauseAt(faults, error, depth)
      invariant forall d :: 0 <= d < depth ==> !EvidenceAt(published, faults, error, d)
    {
      if IsEvidence(published, faults, current.error) {
        assert EvidenceAt(published, faults, error, depth);
        return true;
      }
      CauseNext(faults, error, depth);
      current := faults(current.error).cause;
      depth := depth + 1;
    }
    forall d | depth <= d < MAX_CAUSE_DEPTH ensures !EvidenceAt(published, faults, error, d) {
      NoObjectBelow(faults, error, depth, d);
    }
    found := false;
  }

  lemma StartOfChain(faults: nat -> Fault, c: Cause)
    ensures CauseAt(faults, c, 0) == c
  {
  }

  // ---------- The verdict ----------

  datatype Verdict = NotSent | Uncertain

  /** `classifyFailure` of window `id`. */
  function Classify(s: State, id: nat, faults: nat -> Fault, error: Cause): Verdict
    requires id in s.windows
  {
    if !s.windows[id].poisoned && HasEvidence(s.published, faults, error) then NotSent else Uncertain
  }

  ghost predicate WasPublished(trace: seq<Event>, error: nat) {
    exists k :: 0 <= k < |trace| && trace[k] == ConnectError(error)
  }

  lemma {:induction false} PublishedExactly(trace: seq<Event>, error: nat)
    ensures error in After(trace).published <==> WasPublished(trace, error)
  {
    if trace != [] {
      var n := |trace| - 1;
      PublishedExactly(trace[..n], error);
      if WasPublished(trace[..n], error) {
        var k :| 0 <= k < n && trace[..n][k] == ConnectError(error);
        assert trace[k] == ConnectError(error);
      }
      if WasPublished(trace, error) {
        var k :| 0 <= k < |trace| && trace[k] == ConnectError(error);
        if k < n {
          assert trace[..n][k] == ConnectError(error);
        }
      }
    }
  }

  /** The error `depth` causes down is connection-stage evidence, in terms of the trace. */
  ghost predicate EvidenceInTrace(trace: seq<Event>, faults: nat -> Fault, error: Cause, depth: nat) {
    var at := CauseAt(faults, error, depth);
    at.Object? && (WasPublished(trace, at.error) || faults(at.error).resolutionOrEgress || faults(at.error).tunnelRefused)
  }

  /** NOT_SENT means, in every interleaving: the target's origin was readable, no request bytes for it (or for an unreadable
      origin) were observed while the window was open, and one of the first five errors is connection-stage evidence. */
  lemma NotSentExactly(trace: seq<Event>, id: nat, i: nat, faults: nat -> Fault, error: Cause)
    requires Possible(trace) && BeginsAt(trace, id, i)
    ensures id in After(trace).windows
    ensures Classify(After(trace), id, faults, error) == NotSent
            <==> (&& !trace[i].target.Unreadable?
                  && !SomeBytesSeen(trace, id, i)
                  && exists depth :: 0 <= depth < MAX_CAUSE_DEPTH && EvidenceInTrace(trace, faults, error, depth))
  {
    hide After, Possible, SomeBytesSeen, CauseAt, WasPublished;
    PoisonedExactly(trace, id, i);
    forall depth | 0 <= depth < MAX_CAUSE_DEPTH
      ensures EvidenceAt(After(trace).published, faults, error, depth) == EvidenceInTrace(trace, faults, error, depth)
    {
      var at := CauseAt(faults, error, depth);
      if at.Object? {
        PublishedExactly(trace, at.error);
      }
    }
  }

  // ---------- The source's sets and flags ----------

  /** The module-level sets, and the flag of each window. */
  class TransportGuard {
    var openIds: set<nat>
    var windows: map<nat, Window>
    var published: set<nat>

    function View(): State
      reads this
    {
      State(openIds, windows, published)
    }

    /** Only windows that exist are open. */
    ghost predicate Valid()
      reads this
    {
      openIds <= windows.Keys
    }

    constructor ()
      ensures View() == Init() && Valid()
    {
      openIds, windows, published := {}, map[], {};
    }

    method BeginWindow(id: nat, target: Origin)
      requires Valid() && id !in windows
      modifies this
      ensures Valid() && View() == Step(old(View()), Begin(id, target))
    {
      var window := Window(target, false);
      if target.Unreadable? {
        window := window.(poisoned := true);
      }
      windows := windows[id := window];
      openIds := openIds + {id};
    }

    method EndWindow(id: nat)
      requires Valid()
      modifies this`openIds
      ensures Valid() && View() == Step(old(View()), End(id))
    {
      openIds := openIds - {id};
    }

    method OnConnectError(error: nat)
      requires Valid()
      modifies this`published
      ensures Valid() && View() == Step(old(View()), ConnectError(error))
    {
      published := published + {error};
    }

    /** Poison the open windows one by one. */
    method PoisonWindowsFor(origin: Origin)
      requires Valid()
      modifies this`windows
      ensures Valid() && View() == Step(old(View()), Bytes(origin))
    {
      ghost var before := windows;
      var left := openIds;
      while left != {}
        invariant left <= openIds && windows == PoisonIn(before, openIds - left, origin)
        decreases |left|
      {
        var id :| id in left;
        assert openIds - (left - {id}) == (openIds - left) + {id};
        PoisonOne(before, openIds - left, origin, id);
        left := left - {id};
        if Hits(origin, windows[id].origin) {
          windows := windows[id := windows[id].(poisoned := true)];
        }
      }
      assert openIds - {} == openIds;
    }

    method ClassifyFailure(id: nat, faults: nat -> Fault, error: Cause) returns (verdict: Verdict)
      requires id in windows
      ensures verdict == Classify(View(), id, faults, error)
    {
      var evidence := HasConnectionStageEvidence(published, faults, error);
      verdict := if !windows[id].poisoned && evidence then NotSent else Uncertain;
    }
  }
}
