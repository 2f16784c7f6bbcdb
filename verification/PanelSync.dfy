/** Panel synchronisation and traffic reports: src/panel_sync/core.rs and
    src/panel_sync/traffic_audit.rs. */
module PanelSync {
  import opened Bytes
  import opened Options

  /** A client's UUID. */
  type Id = nat

  datatype Node = Node(enable: bool, up: U64, down: U64)

  /** Saturating addition on 64 bits. */
  function Plus(a: U64, b: U64): (r: U64)
    ensures a <= r
  {
    if a + b < U64_MODULUS then a + b else U64_MODULUS - 1
  }

  function Minus(a: U64, b: U64): U64 { if a >= b then a - b else 0 }

  datatype Pair = Pair(up: U64, down: U64)

  function Above(a: Pair, b: Pair): Pair { Pair(Minus(a.up, b.up), Minus(a.down, b.down)) }

  /** The audit's clients, the ledger of what the panel has acknowledged, and the counters read by a
      report under way. */
  datatype Panel = Panel(clients: map<Id, Node>, ledger: map<Id, Pair>, reading: map<Id, Pair>, reporting: bool)

  function Counter(p: Panel, id: Id): Pair
  {
    if id in p.clients then Pair(p.clients[id].up, p.clients[id].down) else Pair(0, 0)
  }

  function Ledger(p: Panel, id: Id): Pair
  {
    if id in p.ledger then p.ledger[id] else Pair(0, 0)
  }

  /** What a report would send for the client. */
  function Delta(p: Panel, id: Id): Pair { Above(Counter(p, id), Ledger(p, id)) }

  /** Lock sections of the relay, of `sync_once` and of `report_traffic_once`. Traffic may come at any
      time; synchronisation and reports are one task, so they do not overlap. */
  datatype Event =
    | Traffic(id: Id, up: U64, down: U64)
    | AddClient(id: Id, enable: bool)
    | RemoveClients(ids: set<Id>)
    | BeginReport
    | ReadClient(id: Id)
    | EndReport(acknowledged: bool)

  predicate Possible(p: Panel, ev: Event)
  {
    match ev
    case Traffic(_, _, _) => true
    case AddClient(_, _) => !p.reporting
    case RemoveClients(_) => !p.reporting
    case BeginReport => !p.reporting
    case ReadClient(id) => p.reporting && id in p.clients && id !in p.reading
    case EndReport(_) => p.reporting
  }

  function Step(p: Panel, ev: Event): Panel
  {
    match ev
    case Traffic(id, up, down) =>
      if id !in p.clients then p
      else
        var node := p.clients[id];
        p.(clients := p.clients[id := node.(up := Plus(node.up, up), down := Plus(node.down, down))])
    case AddClient(id, enable) =>
      var node := if id in p.clients then p.clients[id] else Node(false, 0, 0);
      p.(clients := p.clients[id := node.(enable := enable)])
    case RemoveClients(ids) => p.(clients := p.clients - ids, ledger := p.ledger - ids)
    case BeginReport => p.(reading := map[], reporting := true)
    case ReadClient(id) =>
      if Delta(p, id) == Pair(0, 0) then p else p.(reading := p.reading[id := Counter(p, id)])
    case EndReport(acknowledged) =>
      p.(ledger := if acknowledged then p.ledger + p.reading else p.ledger, reading := map[], reporting := false)
  }

  /** The panel after the events, if each was possible in its turn. */
  function Run(init: Panel, events: seq<Event>): Option<Panel>
  {
    if events == [] then Some(init)
    else
      match Run(init, events[..|events| - 1])
      case None => None
      case Some(p) => if Possible(p, events[|events| - 1]) then Some(Step(p, events[|events| - 1])) else None
  }

  const NewPanel := Panel(map[], map[], map[], false)

  // ---- Conservation ----

  predicate AtMost(a: Pair, b: Pair) { a.up <= b.up && a.down <= b.down }

  /** The ledger covers known clients only and never exceeds their counters; counters read by a
      report lie in between. */
  ghost predicate Sound(p: Panel)
  {
    && p.ledger.Keys <= p.clients.Keys && p.reading.Keys <= p.clients.Keys
    && (!p.reporting ==> p.reading == map[])
    && (forall id :: id in p.clients ==> AtMost(Ledger(p, id), Counter(p, id)))
    && (forall id :: id in p.reading ==> AtMost(Ledger(p, id), p.reading[id]) && AtMost(p.reading[id], Counter(p, id)))
  }

  lemma StepSound(p: Panel, ev: Event)
    requires Sound(p) && Possible(p, ev)
    ensures Sound(Step(p, ev))
  {
  }

  /** The sum of the deltas the panel acknowledged for the client since it was last added. */
  function Acknowledged(events: seq<Event>, id: Id): (nat, nat)
  {
    if events == [] then (0, 0)
    else
      var front, ev := events[..|events| - 1], events[|events| - 1];
      var before := Acknowledged(front, id);
      match Run(NewPanel, front)
      case None => before
      case Some(p) =>
        if ev.RemoveClients? && id in ev.ids then (0, 0)
        else if ev == EndReport(true) && id in p.reading then
          var delta := Above(p.reading[id], Ledger(p, id));
          (before.0 + delta.up, before.1 + delta.down)
        else before
  }

  /** Nothing is reported twice and nothing is lost: over any run of traffic, synchronisations and
      successful or failed reports, what the panel acknowledged for a client is its ledger entry, and
      together with what the next report would send it is the client's counter. */
  lemma {:induction false} ReportsConserve(events: seq<Event>, id: Id)
    requires Run(NewPanel, events).Some?
    ensures var p := Run(NewPanel, events).value;
            && Sound(p)
            && Acknowledged(events, id) == (Ledger(p, id).up as nat, Ledger(p, id).down as nat)
            && Acknowledged(events, id).0 + Delta(p, id).up == Counter(p, id).up
            && Acknowledged(events, id).1 + Delta(p, id).down == Counter(p, id).down
  {
    if events != [] {
      var front, ev := events[..|events| - 1], events[|events| - 1];
      var p := Run(NewPanel, front).value;
      ReportsConserve(front, id);
      StepSound(p, ev);
      LedgerStep(p, ev, id);
    }
  }

  /** How a step changes a client's ledger entry. */
  lemma LedgerStep(p: Panel, ev: Event, id: Id)
    requires Sound(p) && Possible(p, ev)
    ensures Ledger(Step(p, ev), id) ==
            if ev.RemoveClients? && id in ev.ids then Pair(0, 0)
            else if ev == EndReport(true) && id in p.reading then p.reading[id]
            else Ledger(p, id)
  {
  }

  // ---- What the counters count ----

  /** The client was added and not removed since. */
  predicate Known(events: seq<Event>, id: Id)
  {
    events != [] &&
    var front, ev := events[..|events| - 1], events[|events| - 1];
    (ev.AddClient? && ev.id == id) || (Known(front, id) && !(ev.RemoveClients? && id in ev.ids))
  }

  /** The bytes of the client's traffic since it was last added, up and down. */
  function TrafficOf(events: seq<Event>, id: Id): (nat, nat)
  {
    if !Known(events, id) then (0, 0)
    else
      var front, ev := events[..|events| - 1], events[|events| - 1];
      var before := TrafficOf(front, id);
      if ev.Traffic? && ev.id == id then (before.0 + ev.up, before.1 + ev.down) else before
  }

  /** What the last synchronisation that listed the client said about it. */
  function EnabledBy(events: seq<Event>, id: Id): bool
  {
    events != [] &&
    var front, ev := events[..|events| - 1], events[|events| - 1];
    if ev.AddClient? && ev.id == id then ev.enable else EnabledBy(front, id)
  }

  /** A 64-bit counter that stops at its largest value. */
  function Capped(n: nat): U64 { if n < U64_MODULUS then n else U64_MODULUS - 1 }

  /** Over any run: the known clients are those added and not removed since, enabled as last listed,
      and the counters are the sums of their traffic since then, each in its own direction, capped at
      64 bits. Traffic of unknown clients counts for nobody. */
  lemma {:induction false} TrafficCounted(events: seq<Event>, id: Id)
    requires Run(NewPanel, events).Some?
    ensures var p := Run(NewPanel, events).value;
            && (id in p.clients <==> Known(events, id))
            && (id in p.clients ==> p.clients[id].enable == EnabledBy(events, id))
            && Counter(p, id) == Pair(Capped(TrafficOf(events, id).0), Capped(TrafficOf(events, id).1))
  {
    if events != [] {
      TrafficCounted(events[..|events| - 1], id);
    }
  }

  /** Everything is reported: while the sums stay below 2^64, what the panel acknowledged for a client
      and what the next report would send make up its traffic since it was last added. */
  lemma AllTrafficReported(events: seq<Event>, id: Id)
    requires Run(NewPanel, events).Some?
    requires TrafficOf(events, id).0 < U64_MODULUS && TrafficOf(events, id).1 < U64_MODULUS
    ensures var p := Run(NewPanel, events).value;
            && Acknowledged(events, id).0 + Delta(p, id).up == TrafficOf(events, id).0
            && Acknowledged(events, id).1 + Delta(p, id).down == TrafficOf(events, id).1
  {
    ReportsConserve(events, id);
    TrafficCounted(events, id);
  }

  // ---- The imperative form ----

  /** One entry of the panel's user list; an entry without a readable id is ignored. */
  datatype SyncUser = SyncUser(id: Option<Id>, enable: bool)

  function Adds(users: seq<SyncUser>): seq<Event>
  {
    if users == [] then []
    else
      var last := users[|users| - 1];
      Adds(users[..|users| - 1]) + if last.id.Some? then [AddClient(last.id.value, last.enable)] else []
  }

  function Seen(users: seq<SyncUser>): set<Id>
  {
    set i | 0 <= i < |users| && users[i].id.Some? :: users[i].id.value
  }

  function ReadsOf(order: seq<Id>): seq<Event>
  {
    if order == [] then [] else ReadsOf(order[..|order| - 1]) + [ReadClient(order[|order| - 1])]
  }

  /** What a report would send for those of the clients that have any. */
  function Deltas(p: Panel, ids: set<Id>): map<Id, Pair>
  {
    map id | id in ids && Delta(p, id) != Pair(0, 0) :: Delta(p, id)
  }

  lemma DeltasAdd(p: Panel, ids: set<Id>, id: Id)
    ensures Deltas(p, ids + {id}) == if Delta(p, id) == Pair(0, 0) then Deltas(p, ids)
                                     else Deltas(p, ids)[id := Delta(p, id)]
  {
  }

  lemma AddSnoc(p: Panel, users: seq<SyncUser>, user: SyncUser)
    requires Run(p, Adds(users)).Some? && !Run(p, Adds(users)).value.reporting
    ensures Run(p, Adds(users + [user]))
            == if user.id.None? then Run(p, Adds(users))
               else Some(Step(Run(p, Adds(users)).value, AddClient(user.id.value, user.enable)))
  {
    assert (users + [user])[..|users|] == users;
    if user.id.Some? {
      RunSnoc(p, Adds(users), AddClient(user.id.value, user.enable));
    } else {
      assert Adds(users) + [] == Adds(users);
    }
  }

  lemma NoneAdded(p: Panel)
    ensures Run(p, Adds([])) == Some(p) && Seen([]) == {}
  {
  }

  lemma RunSnoc(init: Panel, events: seq<Event>, ev: Event)
    requires Run(init, events).Some? && Possible(Run(init, events).value, ev)
    ensures Run(init, events + [ev]) == Some(Step(Run(init, events).value, ev))
  {
    assert (events + [ev])[..|events|] == events;
  }

  class TrafficAudit {
    var clients: map<Id, Node>

    constructor ()
      ensures clients == map[]
    {
      clients := map[];
    }

    method AddTrafficOf(id: Id, up: U64, down: U64)
      modifies this
      ensures forall ledger: map<Id, Pair> ::
                Panel(clients, ledger, map[], false)
                == Step(Panel(old(clients), ledger, map[], false), Traffic(id, up, down))
    {
      if id in clients {
        var node := clients[id];
        clients := clients[id := node.(up := Plus(node.up, up), down := Plus(node.down, down))];
      }
    }

    method AddClient(id: Id)
      modifies this
      ensures clients == if id in old(clients) then old(clients) else old(clients)[id := Node(false, 0, 0)]
    {
      if id !in clients {
        clients := clients[id := Node(false, 0, 0)];
      }
    }

    method RemoveClient(id: Id)
      modifies this
      ensures clients == old(clients) - {id}
    {
      clients := clients - {id};
    }

    method SetEnableOf(id: Id, enable: bool)
      modifies this
      ensures clients == var node := if id in old(clients) then old(clients)[id] else Node(false, 0, 0);
                         old(clients)[id := node.(enable := enable)]
    {
      var node := if id in clients then clients[id] else Node(false, 0, 0);
      clients := clients[id := node.(enable := enable)];
    }
  }

  class PanelSyncClient {
    var reported: map<Id, Pair>

    constructor ()
      ensures reported == map[]
    {
      reported := map[];
    }

    function View(audit: TrafficAudit): Panel
      reads this, audit
    {
      Panel(audit.clients, reported, map[], false)
    }

    /** One synchronisation with the fetched list, or with none when fetching failed: it is the run
        that adds the listed clients in order and then removes those not listed. */
    method SyncOnce(audit: TrafficAudit, fetched: Option<seq<SyncUser>>) returns (ok: bool)
      modifies this, audit
      ensures ok == fetched.Some?
      ensures !ok ==> View(audit) == old(View(audit))
      ensures ok ==>
                && Run(old(View(audit)), Adds(fetched.value)
                                         + [RemoveClients(old(audit.clients).Keys - Seen(fetched.value))])
                   == Some(View(audit))
                && audit.clients.Keys == Seen(fetched.value)
    {
      hide Run, Adds, Seen;
      if fetched.None? {
        return false;
      }
      ghost var before := View(audit);
      var users := fetched.value;
      var existing := audit.clients.Keys;
      var seen: set<Id> := {};
      assert users[..0] == [];
      NoneAdded(before);
      for i := 0 to |users|
        invariant reported == before.ledger
        invariant seen == Seen(users[..i]) && audit.clients.Keys == existing + seen
        invariant Run(before, Adds(users[..i])) == Some(View(audit))
      {
        var user := users[i];
        assert users[..i + 1] == users[..i] + [user];
        SeenSnoc(users[..i], user);
        AddSnoc(before, users[..i], user);
        ghost var was := audit.clients;
        if user.id.Some? {
          seen := seen + {user.id.value};
          audit.AddClient(user.id.value);
          audit.SetEnableOf(user.id.value, user.enable);
          assert View(audit) == Step(before.(clients := was), Event.AddClient(user.id.value, user.enable));
        }
      }
      assert users[..|users|] == users;
      RunSnoc(before, Adds(users), RemoveClients(existing - seen));
      RemoveUnseen(audit, existing - seen);
      return true;
    }

    method RemoveUnseen(audit: TrafficAudit, gone: set<Id>)
      modifies this, audit
      ensures View(audit) == old(Step(View(audit), RemoveClients(gone)))
    {
      var rest := gone;
      while rest != {}
        invariant rest <= gone
        invariant audit.clients == old(audit.clients) - (gone - rest)
        invariant reported == old(reported) - (gone - rest)
        decreases rest
      {
        var id :| id in rest;
        audit.RemoveClient(id);
        reported := reported - {id};
        rest := rest - {id};
      }
      assert gone - rest == gone;
    }

    /** One report: it reads every client once, in some order, sends what is above the ledger for
        each client that has any, and moves the ledger on exactly when the panel acknowledges. */
    method ReportTrafficOnce(audit: TrafficAudit, acknowledged: bool)
      returns (payload: map<Id, Pair>, ghost order: seq<Id>)
      modifies this
      ensures payload == Deltas(old(View(audit)), audit.clients.Keys)
      ensures Run(old(View(audit)), [BeginReport] + ReadsOf(order) + [EndReport(acknowledged)]) == Some(View(audit))
      ensures forall id :: id in order <==> id in audit.clients
    {
      hide Run, Step, Deltas, ReadsOf;
      ghost var before := View(audit);
      ghost var ids := audit.clients.Keys;
      var current: map<Id, Pair> := map[];
      var rest := audit.clients.Keys;
      payload, order := map[], [];
      assert ids - rest == {};
      BeginRuns(before);
      while rest != {}
        invariant rest <= ids && reported == before.ledger
        invariant forall id :: id in order <==> id in ids - rest
        invariant Run(before, [BeginReport] + ReadsOf(order))
                  == Some(before.(reading := current, reporting := true))
        invariant current.Keys !! rest
        invariant payload == Deltas(before, ids - rest)
        decreases rest
      {
        var id :| id in rest;
        var counter := Pair(audit.clients[id].up, audit.clients[id].down);
        var last := if id in reported then reported[id] else Pair(0, 0);
        var delta := Above(counter, last);
        assert delta == Delta(before, id);
        ReadSnoc(before, order, current, id);
        DeltasAdd(before, ids - rest, id);
        if delta != Pair(0, 0) {
          current := current[id := counter];
          payload := payload[id := delta];
        }
        order := order + [id];
        assert ids - (rest - {id}) == ids - rest + {id};
        rest := rest - {id};
      }
      assert ids - rest == ids;
      ReportEnds(before, order, current, acknowledged);
      if acknowledged {
        reported := reported + current;
      }
    }
  }

  lemma ReportEnds(p: Panel, order: seq<Id>, current: map<Id, Pair>, acknowledged: bool)
    requires Run(p, [BeginReport] + ReadsOf(order)) == Some(p.(reading := current, reporting := true))
    ensures Run(p, [BeginReport] + ReadsOf(order) + [EndReport(acknowledged)])
            == Some(p.(ledger := if acknowledged then p.ledger + current else p.ledger,
                       reading := map[], reporting := false))
  {
    RunSnoc(p, [BeginReport] + ReadsOf(order), EndReport(acknowledged));
  }

  lemma SeenSnoc(users: seq<SyncUser>, user: SyncUser)
    ensures Seen(users + [user]) == Seen(users) + if user.id.Some? then {user.id.value} else {}
  {
    var all := users + [user];
    forall id ensures id in Seen(all) <==> id in Seen(users) || user.id == Some(id) {
      if id in Seen(users) {
        var i :| 0 <= i < |users| && users[i].id == Some(id);
        assert all[i] == users[i];
      }
      if user.id == Some(id) {
        assert all[|users|] == user;
      }
    }
  }

  lemma BeginRuns(p: Panel)
    requires !p.reporting
    ensures Run(p, [BeginReport] + ReadsOf([])) == Some(p.(reading := map[], reporting := true))
    ensures Deltas(p, {}) == map[]
  {
    RunSnoc(p, [], BeginReport);
    assert [BeginReport] + ReadsOf([]) == [] + [BeginReport];
  }

  lemma ReadSnoc(p: Panel, order: seq<Id>, current: map<Id, Pair>, id: Id)
    requires Run(p, [BeginReport] + ReadsOf(order)) == Some(p.(reading := current, reporting := true))
    requires id in p.clients && id !in current
    ensures Run(p, [BeginReport] + ReadsOf(order + [id]))
            == Some(p.(reading := if Delta(p, id) == Pair(0, 0) then current else current[id := Counter(p, id)],
                       reporting := true))
  {
    RunSnoc(p, [BeginReport] + ReadsOf(order), ReadClient(id));
    assert (order + [id])[..|order|] == order;
    assert [BeginReport] + (ReadsOf(order) + [ReadClient(id)]) == [BeginReport] + ReadsOf(order) + [ReadClient(id)];
  }
}
