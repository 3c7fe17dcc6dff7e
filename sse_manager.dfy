/** `InMemorySseConnectionManager`: for each task id, the ordered list of
    response streams subscribed to it. A connection is registered by
    `AddConnectionAsync`, which then keeps it alive with pings until its
    request is cancelled and finally removes it; `SendUpdateAsync` writes an
    event to every connection in a snapshot of the task's list. */
module SseConnections {
  import opened Wrappers
  import opened Models
  import opened Sse
  import opened Text

  type Connections = map<string, seq<SseConnection>>

  /** No connection occurs twice. */
  predicate Distinct(cs: seq<SseConnection>) {
    forall i, j | 0 <= i < j < |cs| :: cs[i] != cs[j]
  }

  /** Every list is non-empty (an emptied list loses its key) and holds
      each connection once. */
  predicate TableWellFormed(conns: Connections) {
    forall t | t in conns :: conns[t] != [] && Distinct(conns[t])
  }

  /** `List.Remove`: the first occurrence goes, the others keep their
      order. */
  function RemoveFirst(cs: seq<SseConnection>, c: SseConnection): (r: seq<SseConnection>)
    ensures c !in cs ==> r == cs
    ensures forall x | x in r :: x in cs
    decreases |cs|
  {
    if cs == [] then []
    else if cs[0] == c then cs[1..]
    else [cs[0]] + RemoveFirst(cs[1..], c)
  }

  lemma DistinctCons(x: SseConnection, r: seq<SseConnection>)
    requires x !in r && Distinct(r)
    ensures Distinct([x] + r)
  {
    forall i, j | 0 <= i < j < |[x] + r|
      ensures ([x] + r)[i] != ([x] + r)[j]
    {
      if i > 0 {
        assert ([x] + r)[i] == r[i - 1];
      }
    }
  }

  lemma {:induction false} RemoveFirstDistinct(cs: seq<SseConnection>, c: SseConnection)
    requires Distinct(cs)
    ensures Distinct(RemoveFirst(cs, c))
    decreases |cs|
  {
    if cs != [] && cs[0] != c {
      assert Distinct(cs[1..]) by {
        forall i, j | 0 <= i < j < |cs[1..]|
          ensures cs[1..][i] != cs[1..][j]
        {
          assert cs[1..][i] == cs[i + 1] && cs[1..][j] == cs[j + 1];
        }
      }
      RemoveFirstDistinct(cs[1..], c);
      assert cs[0] !in cs[1..] by {
        forall k | 0 <= k < |cs[1..]|
          ensures cs[1..][k] != cs[0]
        {
          assert cs[1..][k] == cs[k + 1];
        }
      }
      DistinctCons(cs[0], RemoveFirst(cs[1..], c));
    }
  }

  lemma {:induction false} RemoveFirstAfter(a: seq<SseConnection>, c: SseConnection, b: seq<SseConnection>)
    requires c !in a
    ensures RemoveFirst(a + [c] + b, c) == a + b
    decreases |a|
  {
    if a == [] {
      assert ([c] + b)[1..] == b;
    } else {
      assert (a + [c] + b)[1..] == a[1..] + [c] + b;
      RemoveFirstAfter(a[1..], c, b);
      assert [a[0]] + (a[1..] + b) == a + b;
    }
  }

  /** A task's list after a change: the key is dropped once the list is
      empty. */
  function WithList(conns: Connections, taskId: string, cs: seq<SseConnection>): Connections {
    if cs == [] then conns - {taskId} else conns[taskId := cs]
  }

  /** `RemoveConnection`: the first occurrence of the connection leaves the
      task's list and the task's entry goes when nothing is left; an
      unknown task or connection changes nothing. */
  function Removed(conns: Connections, taskId: string, c: SseConnection): (r: Connections)
    ensures taskId !in conns || c !in conns[taskId] ==> r == conns
    ensures r.Keys <= conns.Keys
    ensures forall t | t in conns && t != taskId :: t in r && r[t] == conns[t]
    ensures taskId in conns && c in conns[taskId] ==>
      var rest := RemoveFirst(conns[taskId], c);
      (taskId in r <==> rest != []) && (taskId in r ==> r[taskId] == rest)
  {
    if taskId in conns && c in conns[taskId] then WithList(conns, taskId, RemoveFirst(conns[taskId], c)) else conns
  }

  /** `AddOrUpdate` in `AddConnectionAsync`: the connection joins the end of
      the task's list, which is created when absent. */
  function Added(conns: Connections, taskId: string, c: SseConnection): (r: Connections)
    ensures r.Keys == conns.Keys + {taskId}
    ensures r[taskId] == (if taskId in conns then conns[taskId] else []) + [c]
    ensures forall t | t in conns && t != taskId :: r[t] == conns[t]
  {
    if taskId in conns then conns[taskId := conns[taskId] + [c]] else conns[taskId := [c]]
  }

  /** Removing a connection that was just added restores the table. */
  lemma AddThenRemove(conns: Connections, taskId: string, c: SseConnection)
    requires TableWellFormed(conns)
    requires taskId in conns ==> c !in conns[taskId]
    ensures Removed(Added(conns, taskId, c), taskId, c) == conns
  {
    var before := if taskId in conns then conns[taskId] else [];
    RemoveFirstAfter(before, c, []);
    assert before + [c] + [] == before + [c];
    assert before + [] == before;
  }

  lemma DistinctSplit(cs: seq<SseConnection>, i: int)
    requires Distinct(cs) && 0 <= i < |cs|
    ensures cs[i] !in cs[..i] && cs[i] !in cs[i + 1..]
  {
    forall k | 0 <= k < i
      ensures cs[..i][k] != cs[i]
    {
      assert cs[..i][k] == cs[k];
    }
    forall k | i < k < |cs|
      ensures cs[k] != cs[i]
    {
    }
    var tail := cs[i + 1..];
    forall k | 0 <= k < |tail|
      ensures tail[k] != cs[i]
    {
      assert tail[k] == cs[i + 1 + k];
    }
  }

  /** Whether a connection stays registered after a publish: an aborted
      request is removed, and when `removeFailed` holds so is a connection
      whose write of a known event fails. */
  predicate Keeps(c: SseConnection, e: UpdateEvent, removeFailed: bool) {
    !c.aborted && !(removeFailed && c.writeFails && EventName(e).Some?)
  }

  /** The connections of `cs` that stay after publishing `e`. */
  function Survivors(cs: seq<SseConnection>, e: UpdateEvent, removeFailed: bool): (r: set<SseConnection>) {
    set c | c in cs && Keeps(c, e, removeFailed)
  }

  /** The elements of `cs` that are in `keep`, in order. */
  function Filter(cs: seq<SseConnection>, keep: set<SseConnection>): (r: seq<SseConnection>)
    ensures forall c | c in r :: c in cs && c in keep
    decreases |cs|
  {
    if cs == [] then []
    else
      var init := Filter(cs[..|cs| - 1], keep);
      var last := cs[|cs| - 1];
      assert cs == cs[..|cs| - 1] + [last];
      if last in keep then init + [last] else init
  }

  lemma FilterStep(cs: seq<SseConnection>, c: SseConnection, keep: set<SseConnection>)
    ensures Filter(cs + [c], keep) == Filter(cs, keep) + (if c in keep then [c] else [])
  {
    assert (cs + [c])[..|cs|] == cs;
  }

  /** The bookkeeping of one round of the publish loop over `snap`. */
  lemma PublishStep(snap: seq<SseConnection>, i: int, keep: set<SseConnection>)
    requires Distinct(snap) && 0 <= i < |snap|
    ensures var c := snap[i];
      var kept := Filter(snap[..i], keep);
      snap[..i + 1] == snap[..i] + [c] && snap[i..] == [c] + snap[i + 1..]
      && c !in snap[..i] && c !in snap[i + 1..] && c !in kept
      && (forall j | 0 <= j < |snap| && j != i :: snap[j] != c)
      && Filter(snap[..i], keep) + snap[i..] == kept + [c] + snap[i + 1..]
      && Filter(snap[..i + 1], keep) + snap[i + 1..] == (if c in keep then kept + [c] else kept) + snap[i + 1..]
  {
    DistinctSplit(snap, i);
    assert snap[..i + 1] == snap[..i] + [snap[i]];
    FilterStep(snap[..i], snap[i], keep);
    forall j | 0 <= j < |snap| && j != i
      ensures snap[j] != snap[i]
    {
      if j < i {
        assert snap[j] == snap[..i][j];
      } else {
        assert snap[j] == snap[i + 1..][j - i - 1];
      }
    }
  }

  /** A connection stays exactly when it was in the list and is kept. */
  lemma {:induction false} FilterMembers(cs: seq<SseConnection>, keep: set<SseConnection>, x: SseConnection)
    ensures x in Filter(cs, keep) <==> x in cs && x in keep
    decreases |cs|
  {
    if cs != [] {
      var init := cs[..|cs| - 1];
      assert cs == init + [cs[|cs| - 1]];
      FilterMembers(init, keep, x);
    }
  }

  /** As written, a publish keeps every connection whose request is not
      aborted, including one whose writes fail. */
  lemma AsWrittenKeepsLive(cs: seq<SseConnection>, e: UpdateEvent, x: SseConnection)
    ensures x in Filter(cs, Survivors(cs, e, false)) <==> x in cs && !x.aborted
  {
    FilterMembers(cs, Survivors(cs, e, false), x);
  }

  /** The discrepancy: a live connection whose write fails receives nothing
      from a status or artifact event and yet stays registered, so every
      later publish writes to it in vain. */
  lemma FailedWriteStaysRegistered(c: SseConnection, e: UpdateEvent, json: string)
    requires !c.aborted && c.writeFails && !e.OtherUpdate?
    ensures EventOutput(c, e, json) == ""
    ensures c in Filter([c], Survivors([c], e, false))
  {
    AsWrittenKeepsLive([c], e, c);
  }

  /** With the removal the handler intends, every connection that stays after
      publishing a status or artifact event has received that event. */
  lemma RemovingFailedKeepsReceivers(cs: seq<SseConnection>, e: UpdateEvent, json: string, x: SseConnection)
    requires !e.OtherUpdate?
    ensures x in Filter(cs, Survivors(cs, e, true)) <==> x in cs && x.Writable()
    ensures x in Filter(cs, Survivors(cs, e, true)) ==> EventOutput(x, e, json) == EventFrame(EventName(e).value, json)
  {
    FilterMembers(cs, Survivors(cs, e, true), x);
  }

  /** A position of a member of a list. */
  lemma IndexOf(cs: seq<SseConnection>, c: SseConnection) returns (j: nat)
    requires c in cs
    ensures j < |cs| && cs[j] == c
  {
    j :| j < |cs| && cs[j] == c;
  }

  lemma WithListTwice(conns: Connections, taskId: string, a: seq<SseConnection>, b: seq<SseConnection>)
    ensures WithList(conns[taskId := a], taskId, b) == WithList(conns, taskId, b)
  {
    if b == [] {
      assert conns[taskId := a] - {taskId} == conns - {taskId};
    }
  }

  /** What `n` keep-alive pings write to a connection. */
  function Pings(n: nat): string {
    if n == 0 then "" else Pings(n - 1) + CommentFrame("ping")
  }

  /** What a connection receives from a sequence of publishes, one
      `WriteSseEventAsync` per event in order; `toJson` is the serialiser. */
  function Outputs(c: SseConnection, events: seq<UpdateEvent>, toJson: UpdateEvent -> string): string
    decreases |events|
  {
    if events == [] then ""
    else Outputs(c, events[..|events| - 1], toJson) + EventOutput(c, events[|events| - 1], toJson(events[|events| - 1]))
  }

  lemma {:induction false} OutputsAppend(c: SseConnection, a: seq<UpdateEvent>, b: seq<UpdateEvent>, toJson: UpdateEvent -> string)
    ensures Outputs(c, a + b, toJson) == Outputs(c, a, toJson) + Outputs(c, b, toJson)
    decreases |b|
  {
    if b == [] {
      assert a + b == a;
    } else {
      var init := b[..|b| - 1];
      var last := b[|b| - 1];
      var piece := EventOutput(c, last, toJson(last));
      assert (a + b)[..|a + b| - 1] == a + init;
      assert (a + b)[|a + b| - 1] == last;
      assert Outputs(c, a + b, toJson) == Outputs(c, a + init, toJson) + piece;
      assert Outputs(c, b, toJson) == Outputs(c, init, toJson) + piece;
      OutputsAppend(c, a, init, toJson);
      Assoc3(Outputs(c, a, toJson), Outputs(c, init, toJson), piece);
    }
  }

  /** A connection that cannot be written to receives nothing, and a
      writable one receives one frame per known event. */
  lemma {:induction false} OutputsOfUnwritable(c: SseConnection, events: seq<UpdateEvent>, toJson: UpdateEvent -> string)
    requires !c.Writable()
    ensures Outputs(c, events, toJson) == ""
    decreases |events|
  {
    if events != [] {
      OutputsOfUnwritable(c, events[..|events| - 1], toJson);
    }
  }

  /** In a list without repetitions, `List.Remove` takes the connection out
      entirely and keeps every other one. */
  lemma {:induction false} RemoveFirstMembers(cs: seq<SseConnection>, c: SseConnection, x: SseConnection)
    requires Distinct(cs)
    ensures x in RemoveFirst(cs, c) <==> x in cs && x != c
    decreases |cs|
  {
    if cs != [] {
      DistinctSplit(cs, 0);
      assert cs[1..] == cs[0 + 1..];
      assert Distinct(cs[1..]) by {
        forall i, j | 0 <= i < j < |cs[1..]|
          ensures cs[1..][i] != cs[1..][j]
        {
          assert cs[1..][i] == cs[i + 1] && cs[1..][j] == cs[j + 1];
        }
      }
      if cs[0] != c {
        RemoveFirstMembers(cs[1..], c, x);
      }
    }
  }

  class InMemorySseConnectionManager {
    var connections: Connections

    ghost predicate Valid()
      reads this
    {
      TableWellFormed(connections)
    }

    constructor ()
      ensures Valid() && connections == map[]
    {
      connections := map[];
    }

    /** The connections registered for a task (the snapshot a publish
        takes). */
    function Snapshot(taskId: string): seq<SseConnection>
      reads this
    {
      if taskId in connections then connections[taskId] else []
    }

    /** `AddConnectionAsync`: the response is prepared for streaming, the
        connection is registered, the keep-alive loop pings it until the
        request is cancelled, and the connection is then removed again.
        `pings` is how many 30-second delays complete before the
        cancellation. */
    method AddConnection(taskId: string, context: SseConnection, pings: nat)
      requires Valid()
      requires context !in Snapshot(taskId)
      modifies this, context
      ensures Valid() && connections == old(connections)
      ensures context.contentType == Some("text/event-stream")
      ensures context.headers == old(context.headers) + [("Cache-Control", "no-cache"), ("Connection", "keep-alive")]
      ensures context.body == old(context.body) + (if context.Writable() then Pings(pings) else "")
    {
      PrepareSseStream(context);
      Register(taskId, context);
      KeepAlive(taskId, context, pings);
      AddThenRemove(old(connections), taskId, context);
    }

    /** The registration step of `AddConnectionAsync`. */
    method Register(taskId: string, context: SseConnection)
      requires Valid()
      requires context !in Snapshot(taskId)
      modifies this
      ensures Valid() && connections == Added(old(connections), taskId, context)
    {
      var before := Snapshot(taskId);
      forall i, j | 0 <= i < j < |before + [context]|
        ensures (before + [context])[i] != (before + [context])[j]
      {
        if j == |before| {
          assert (before + [context])[i] == before[i];
        }
      }
      connections := Added(connections, taskId, context);
    }

    /** The keep-alive loop of `AddConnectionAsync` and its `finally`: a
        ping after every completed delay while the request runs; then the
        connection is removed. */
    method KeepAlive(taskId: string, context: SseConnection, pings: nat)
      requires Valid()
      modifies this, context`body
      ensures Valid() && connections == Removed(old(connections), taskId, context)
      ensures context.body == old(context.body) + (if context.Writable() then Pings(pings) else "")
    {
      var ticks := 0;
      var cancelled := context.aborted;
      while !cancelled
        invariant ticks <= pings
        invariant connections == old(connections)
        invariant cancelled ==> context.aborted || ticks == pings
        invariant context.body == old(context.body) + (if context.Writable() then Pings(ticks) else "")
        decreases pings - ticks, if cancelled then 0 else 1
      {
        if ticks == pings {
          // the request is cancelled during the next delay
          cancelled := true;
        } else {
          ghost var b := context.body;
          WriteSseComment(context, "ping");
          assert context.body == b + (if context.Writable() then CommentFrame("ping") else "");
          ticks := ticks + 1;
        }
      }
      assert context.Writable() ==> ticks == pings;
      RemoveConnection(taskId, context);
    }

    /** `RemoveConnection`. */
    method RemoveConnection(taskId: string, context: SseConnection)
      requires Valid()
      modifies this
      ensures Valid() && connections == Removed(old(connections), taskId, context)
    {
      if taskId in connections && context in connections[taskId] {
        var rest := RemoveFirst(connections[taskId], context);
        RemoveFirstDistinct(connections[taskId], context);
        connections := WithList(connections, taskId, rest);
      }
    }

    /** `SendUpdateAsync` as written: every connection of the snapshot
        whose request is not aborted gets the event written to it, and the
        aborted ones are removed. A connection whose write fails stays
        registered, because the write swallows its own errors. */
    method SendUpdate(taskId: string, e: UpdateEvent, json: string)
      requires Valid()
      modifies this, Snapshot(taskId)`body
      ensures Valid()
      ensures old(taskId !in connections) ==> connections == old(connections)
      ensures old(taskId in connections) ==> connections == WithList(old(connections), taskId, Filter(old(Snapshot(taskId)), old(Survivors(Snapshot(taskId), e, false))))
      ensures forall c | c in old(Snapshot(taskId)) ::
        c.body == old(c.body) + EventOutput(c, e, json)
    {
      Deliver(taskId, e, json, false);
    }

    /** `SendUpdateAsync` called once per event, in order: every connection
        of the task's list gets each event's output; a connection stays
        registered while its request is not aborted, none joins, and the
        other tasks' lists are untouched. */
    method SendUpdates(taskId: string, events: seq<UpdateEvent>, toJson: UpdateEvent -> string)
      requires Valid()
      modifies this, (set c | c in Snapshot(taskId))`body
      ensures Valid()
      ensures forall c | c in old(Snapshot(taskId)) :: c.body == old(c.body) + Outputs(c, events, toJson)
      ensures forall c | c in old(Snapshot(taskId)) && !c.aborted :: c in Snapshot(taskId)
      ensures forall c | c in Snapshot(taskId) :: c in old(Snapshot(taskId))
      ensures forall t | t != taskId :: Snapshot(t) == old(Snapshot(t))
      decreases |events|
    {
      if events == [] {
        return;
      }
      var e := events[|events| - 1];
      SendUpdates(taskId, events[..|events| - 1], toJson);
      ghost var mid := Snapshot(taskId);
      ghost var bodies := map c | c in old(Snapshot(taskId)) :: c.body;
      PublishOne(taskId, e, toJson(e));
      forall c | c in old(Snapshot(taskId))
        ensures c.body == old(c.body) + Outputs(c, events, toJson)
      {
        if c !in mid {
          assert c.aborted;
        }
        assert c.body == bodies[c] + EventOutput(c, e, toJson(e));
        Text.Assoc3(old(c.body), Outputs(c, events[..|events| - 1], toJson), EventOutput(c, e, toJson(e)));
      }
    }

    /** One `SendUpdateAsync` seen from the task's list: its connections get
        the event's output, exactly the ones whose request is not aborted
        stay, and the other tasks' lists are untouched. */
    method PublishOne(taskId: string, e: UpdateEvent, json: string)
      requires Valid()
      modifies this, Snapshot(taskId)`body
      ensures Valid()
      ensures forall c | c in old(Snapshot(taskId)) :: c.body == old(c.body) + EventOutput(c, e, json)
      ensures forall c | c in old(Snapshot(taskId)) :: c in Snapshot(taskId) <==> !c.aborted
      ensures forall c | c in Snapshot(taskId) :: c in old(Snapshot(taskId))
      ensures forall t | t != taskId :: Snapshot(t) == old(Snapshot(t))
    {
      ghost var snap := Snapshot(taskId);
      ghost var conns := connections;
      SendUpdate(taskId, e, json);
      assert Snapshot(taskId) == Filter(snap, Survivors(snap, e, false)) by {
        if taskId in conns {
          assert connections == WithList(conns, taskId, Filter(snap, Survivors(snap, e, false)));
        }
      }
      forall c | c in snap
        ensures c in Snapshot(taskId) <==> !c.aborted
      {
        AsWrittenKeepsLive(snap, e, c);
      }
    }

    /** `SendUpdateAsync` with the removal its `catch` intends: a
        connection whose write fails is removed as well. */
    method SendUpdateRemovingFailed(taskId: string, e: UpdateEvent, json: string)
      requires Valid()
      modifies this, Snapshot(taskId)`body
      ensures Valid()
      ensures old(taskId !in connections) ==> connections == old(connections)
      ensures old(taskId in connections) ==> connections == WithList(old(connections), taskId, Filter(old(Snapshot(taskId)), old(Survivors(Snapshot(taskId), e, true))))
      ensures forall c | c in old(Snapshot(taskId)) ::
        c.body == old(c.body) + EventOutput(c, e, json)
    {
      Deliver(taskId, e, json, true);
    }

    /** The publish loop over the snapshot. */
    method Deliver(taskId: string, e: UpdateEvent, json: string, removeFailed: bool)
      requires Valid()
      modifies this, Snapshot(taskId)`body
      ensures Valid()
      ensures old(taskId !in connections) ==> connections == old(connections)
      ensures old(taskId in connections) ==> connections == WithList(old(connections), taskId, Filter(old(Snapshot(taskId)), old(Survivors(Snapshot(taskId), e, removeFailed))))
      ensures forall c | c in old(Snapshot(taskId)) ::
        c.body == old(c.body) + EventOutput(c, e, json)
    {
      if taskId !in connections {
        return;
      }
      var snap := connections[taskId];
      PublishAll(taskId, snap, e, json, removeFailed);
    }

    /** The loop of `SendUpdateAsync` over the snapshot `snap` of the
        task's list. */
    method PublishAll(taskId: string, snap: seq<SseConnection>, e: UpdateEvent, json: string, removeFailed: bool)
      requires Valid() && taskId in connections && connections[taskId] == snap
      modifies this, snap`body
      ensures Valid()
      ensures connections == WithList(old(connections), taskId, Filter(snap, Survivors(snap, e, removeFailed)))
      ensures forall c | c in snap :: c.body == old(c.body) + EventOutput(c, e, json)
    {
      ghost var keep := Survivors(snap, e, removeFailed);
      ghost var bodies := seq(|snap|, j requires 0 <= j < |snap| reads snap => snap[j].body);
      var i := 0;
      ghost var list := snap;
      assert snap[..0] == [] && snap[0..] == snap;
      while i < |snap|
        invariant 0 <= i <= |snap|
        invariant Served(taskId, snap, i, keep, list, bodies, e, json, removeFailed)
        invariant forall j | 0 <= j < |snap| :: bodies[j] == old(snap[j].body)
        invariant connections == WithList(old(connections), taskId, list)
      {
        ghost var before := list;
        list := ServeAt(taskId, snap, i, snap[i], keep, list, bodies, e, json, removeFailed);
        WithListTwice(old(connections), taskId, before, list);
        i := i + 1;
      }
      assert snap[..i] == snap && snap[i..] == [];
      assert list == Filter(snap, keep);
      forall c | c in snap
        ensures c.body == old(c.body) + EventOutput(c, e, json)
      {
        var j := IndexOf(snap, c);
      }
    }

    /** Where the publish loop stands after serving `snap[..i]`: the
        served connections that stay and the ones still to be served form
        the task's list, the served ones have had the event written to
        them, and the others are untouched. */
    ghost predicate Served(taskId: string, snap: seq<SseConnection>, i: nat, keep: set<SseConnection>,
                           list: seq<SseConnection>, bodies: seq<string>, e: UpdateEvent, json: string,
                           removeFailed: bool)
      reads this, snap
    {
      i <= |snap| == |bodies| && Valid() && Distinct(snap)
      && (forall c | c in snap :: c in keep <==> Keeps(c, e, removeFailed))
      && list == Filter(snap[..i], keep) + snap[i..]
      && (i < |snap| ==> taskId in connections && connections[taskId] == list)
      && (forall j | 0 <= j < i :: snap[j].body == bodies[j] + EventOutput(snap[j], e, json))
      && (forall j | i <= j < |snap| :: snap[j].body == bodies[j])
    }

    /** One round of the publish loop. */
    method ServeAt(taskId: string, snap: seq<SseConnection>, i: nat, c: SseConnection, ghost keep: set<SseConnection>,
                   ghost list: seq<SseConnection>, ghost bodies: seq<string>, e: UpdateEvent, json: string,
                   removeFailed: bool)
      returns (ghost next: seq<SseConnection>)
      requires i < |snap| && c == snap[i] && Served(taskId, snap, i, keep, list, bodies, e, json, removeFailed)
      modifies this, c`body
      ensures Served(taskId, snap, i + 1, keep, next, bodies, e, json, removeFailed)
      ensures connections == WithList(old(connections), taskId, next)
    {
      ghost var kept := Filter(snap[..i], keep);
      ghost var later := snap[i + 1..];
      PublishStep(snap, i, keep);
      next := (if c in keep then kept + [c] else kept) + later;
      Serve(taskId, kept, c, later, e, json, removeFailed);
      if i + 1 < |snap| {
        assert next != [];
      }
    }

    /** One connection of the publish loop: `c` sits between the connections
        already served and kept and the ones still to be served. A live
        request gets the event; an aborted one, or with `removeFailed` one
        whose write failed, is removed. */
    method Serve(taskId: string, ghost kept: seq<SseConnection>, c: SseConnection, ghost later: seq<SseConnection>,
                 e: UpdateEvent, json: string, removeFailed: bool)
      requires Valid() && taskId in connections && connections[taskId] == kept + [c] + later
      requires c !in kept
      modifies this, c`body
      ensures Valid()
      ensures connections == WithList(old(connections), taskId, (if Keeps(c, e, removeFailed) then kept + [c] else kept) + later)
      ensures c.body == old(c.body) + EventOutput(c, e, json)
    {
      if !c.aborted {
        var failed := WriteSseEventReporting(c, e, json);
        if failed && removeFailed {
          RemoveFirstAfter(kept, c, later);
          RemoveConnection(taskId, c);
        } else {
          assert kept + [c] + later != [];
        }
      } else {
        RemoveFirstAfter(kept, c, later);
        RemoveConnection(taskId, c);
      }
    }
  }

  /** `WriteSseEventAsync` reporting whether the write of a known event to
      a live request failed (the error the as-written helper swallows). */
  method WriteSseEventReporting(response: SseConnection, e: UpdateEvent, json: string) returns (failed: bool)
    modifies response`body
    ensures response.body == old(response.body) + EventOutput(response, e, json)
    ensures failed <==> EventName(e).Some? && !response.aborted && response.writeFails
  {
    WriteSseEvent(response, e, json);
    failed := EventName(e).Some? && !response.aborted && response.writeFails;
  }
}
