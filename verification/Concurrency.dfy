/** Any number of clients running the writing calls of the store at once
    (gigaevo/database/redis_program_storage.py).

    Each client goes through its reads, its INCR or INCRBY and its EXEC or
    pipeline one step at a time, and the steps of different clients interleave
    freely. As in Redis, a commit to a key marks every client that watches it as
    dirty, and EXEC of a dirty client writes nothing and starts over. The blind
    calls watch nothing and commit whatever happened; for them the mark is only
    bookkeeping, and so is any step here that the call does not need. Between
    calls a client may fetch, create and edit in-memory copies; it never changes
    a copy's counter. */
module Concurrency {
  import opened Wrappers
  import opened Programs
  import opened Redis
  import opened StoreCalls

  type ClientId = nat

  /** The stamps base + 1, ..., base + n. */
  datatype Ticket = Ticket(base: nat, n: nat)

  /** `since` and `at` are the numbers of commits at the first step of the call
      and when it drew its ticket; `seen` is what its reads find. */
  datatype Pc =
    | Idle
    | Starting(op: Op)
    | Watched(op: Op, dirty: bool, since: nat)
    | Got(op: Op, dirty: bool, since: nat, seen: map<Id, Program>)
    | Numbered(op: Op, dirty: bool, since: nat, seen: map<Id, Program>, ticket: nat, at: nat)

  datatype Client = Client(pc: Pc, copies: map<Id, Program>)

  /** `found` is the stored program a merging call merged onto, `clean` says
      that nobody else committed to the keys during the call. */
  datatype Commit = Commit(op: Op, found: Option<Program>, ticket: nat, base: nat, written: set<Id>, clean: bool)

  /** `handed` are all tickets ever drawn, `high` is for every id the counter of
      its last stored version. */
  datatype World = World(db: Db, clients: map<ClientId, Client>, history: seq<Commit>, handed: seq<Ticket>, high: map<Id, nat>)

  datatype Step =
    | Fetch(c: ClientId, id: Id)
    | Create(c: ClientId, p: Program)
    | Edit(c: ClientId, p: Program)
    | Begin(c: ClientId, op: Op)
    | Watch(c: ClientId)
    | Read(c: ClientId)
    | Number(c: ClientId)
    | Exec(c: ClientId)

  // ---------------------------------------------------------------- steps

  predicate InHand(client: Client, op: Op) {
    forall p :: p in Payload(op) ==> p.id in client.copies && client.copies[p.id] == p
  }

  predicate Enabled(w: World, s: Step) {
    && s.c in w.clients
    && var client := w.clients[s.c];
       match s
       case Fetch(_, id) => id in w.db.blobs
       case Create(_, p) => p.atomicCounter == 0
       case Edit(_, p) => p.id in client.copies && p.atomicCounter == client.copies[p.id].atomicCounter
       case Begin(_, op) => client.pc.Idle? && InHand(client, op)
       case Watch(_) => client.pc.Starting?
       case Read(_) => client.pc.Watched?
       case Number(_) => client.pc.Got?
       case Exec(_) => client.pc.Numbered?
  }

  function SetClient(w: World, c: ClientId, client: Client): World {
    w.(clients := w.clients[c := client])
  }

  function SetPc(w: World, c: ClientId, pc: Pc): World
    requires c in w.clients
  {
    SetClient(w, c, w.clients[c].(pc := pc))
  }

  predicate Active(pc: Pc) { pc.Watched? || pc.Got? || pc.Numbered? }

  predicate Meets(op: Op, written: set<Id>) { !(Keys(op) !! written) }

  function Touch(client: Client, written: set<Id>): Client {
    if Active(client.pc) && Meets(client.pc.op, written) then client.(pc := client.pc.(dirty := true)) else client
  }

  function BaseOf(w: World, ticket: nat): nat { if ticket < |w.handed| then w.handed[ticket].base else 0 }

  /** What the commit sends, the keys it really touches, and the record of
      versions. */
  function After(w: World, pc: Pc): Db
    requires pc.Numbered?
  {
    Sent(w.db, pc.seen, pc.op, BaseOf(w, pc.ticket))
  }

  function Touched(w: World, pc: Pc): set<Id>
    requires pc.Numbered?
  {
    set id | id in Writes(pc.seen, pc.op) && (id in w.db.blobs || id in After(w, pc).blobs)
  }

  function Raised(high: map<Id, nat>, db: Db): map<Id, nat> {
    map id | id in high.Keys + db.blobs.Keys :: if id in db.blobs then db.blobs[id].atomicCounter else high[id]
  }

  function Found(db: Db, op: Op): Option<Program> { if Merging(op) then db.Lookup(op.p.id) else None }

  function Committed(w: World, c: ClientId): World
    requires c in w.clients && w.clients[c].pc.Numbered?
  {
    var pc := w.clients[c].pc;
    var touched := map k | k in w.clients :: Touch(w.clients[k], Touched(w, pc));
    World(After(w, pc), touched[c := w.clients[c].(pc := Idle)],
          w.history + [Commit(pc.op, Found(w.db, pc.op), pc.ticket, BaseOf(w, pc.ticket), Touched(w, pc), !pc.dirty)],
          w.handed, Raised(w.high, After(w, pc)))
  }

  function ExecStep(w: World, c: ClientId): World
    requires c in w.clients && w.clients[c].pc.Numbered?
  {
    var pc := w.clients[c].pc;
    if Raises(pc.seen, pc.op) then SetPc(w, c, Idle)                        // raises before EXEC
    else if Merging(pc.op) && pc.dirty then SetPc(w, c, Starting(pc.op))    // WatchError: try again
    else Committed(w, c)
  }

  function NumberStep(w: World, c: ClientId): World
    requires c in w.clients && w.clients[c].pc.Got?
  {
    var pc := w.clients[c].pc;
    var n := Demand(pc.seen, pc.op);
    SetPc(w.(db := w.db.(counter := w.db.counter + n), handed := w.handed + [Ticket(w.db.counter, n)]), c,
          Numbered(pc.op, pc.dirty, pc.since, pc.seen, |w.handed|, |w.history|))
  }

  function Apply(w: World, s: Step): World
    requires Enabled(w, s)
  {
    var client := w.clients[s.c];
    match s
    case Fetch(c, id) => SetClient(w, c, client.(copies := client.copies[id := w.db.blobs[id]]))
    case Create(c, p) => SetClient(w, c, client.(copies := client.copies[p.id := p]))
    case Edit(c, p) => SetClient(w, c, client.(copies := client.copies[p.id := p]))
    case Begin(c, op) => SetPc(w, c, Starting(op))
    case Watch(c) => SetPc(w, c, Watched(client.pc.op, false, |w.history|))
    case Read(c) => SetPc(w, c, Got(client.pc.op, client.pc.dirty, client.pc.since, w.db.blobs))
    case Number(c) => NumberStep(w, c)
    case Exec(c) => ExecStep(w, c)
  }

  ghost predicate Reaches(w: World, steps: seq<Step>, w': World)
    decreases |steps|
  {
    if steps == [] then w' == w
    else Enabled(w, steps[0]) && Reaches(Apply(w, steps[0]), steps[1..], w')
  }

  ghost predicate Init(w: World) {
    && w.history == [] && w.handed == []
    && Keyed(w.db.blobs)
    && (forall id :: id in w.db.blobs ==> w.db.blobs[id].atomicCounter <= w.db.counter)
    && w.high == Raised(map[], w.db)
    && (forall c :: c in w.clients ==> w.clients[c] == Client(Idle, map[]))
  }

  // ---------------------------------------------------------------- invariants of every run

  function High(w: World, id: Id): nat { if id in w.high then w.high[id] else 0 }

  ghost predicate TouchedSince(history: seq<Commit>, since: nat, op: Op) {
    exists j :: since <= j < |history| && Meets(op, history[j].written)
  }

  /** What a client knows between drawing its ticket and committing. */
  ghost predicate NumberedOk(w: World, pc: Pc)
    requires pc.Numbered?
  {
    && pc.since <= pc.at <= |w.history| && pc.ticket < |w.handed|
    && w.handed[pc.ticket].n == Demand(pc.seen, pc.op)
    && (forall i :: 0 <= i < pc.at ==> w.history[i].ticket < pc.ticket)
    && (!pc.dirty ==> forall id :: id in Keys(pc.op) ==> High(w, id) <= w.handed[pc.ticket].base)
  }

  ghost predicate PcOk(w: World, pc: Pc) {
    && (Active(pc) ==> pc.since <= |w.history| && (pc.dirty <==> TouchedSince(w.history, pc.since, pc.op)))
    && (pc.Got? || pc.Numbered? ==> Keyed(pc.seen) && (!pc.dirty ==> Agree(pc.seen, w.db.blobs, Keys(pc.op))))
    && (pc.Numbered? ==> NumberedOk(w, pc))
  }

  ghost predicate PcsOk(w: World) { forall c :: c in w.clients ==> PcOk(w, w.clients[c].pc) }

  ghost predicate StoreOk(w: World) {
    && Keyed(w.db.blobs)
    && (forall id :: id in w.db.blobs ==> id in w.high && w.high[id] == w.db.blobs[id].atomicCounter)
    && (forall id :: id in w.high ==> w.high[id] <= w.db.counter)
  }

  /** Tickets do not overlap, and the counter is past them all. */
  ghost predicate TicketsOk(start: nat, w: World) {
    && start <= w.db.counter
    && (forall k :: 0 <= k < |w.handed| ==> start <= w.handed[k].base && w.handed[k].base + w.handed[k].n <= w.db.counter)
    && (forall j, k :: 0 <= j < k < |w.handed| ==> w.handed[j].base + w.handed[j].n <= w.handed[k].base)
  }

  predicate Pending(w: World, c: ClientId, ticket: nat) {
    c in w.clients && w.clients[c].pc.Numbered? && w.clients[c].pc.ticket == ticket
  }

  /** No ticket is used twice. */
  ghost predicate UsedOnce(w: World) {
    && (forall i :: 0 <= i < |w.history| ==> w.history[i].ticket < |w.handed| && w.history[i].base == w.handed[w.history[i].ticket].base)
    && (forall i, j :: 0 <= i < j < |w.history| ==> w.history[i].ticket != w.history[j].ticket)
    && (forall c: ClientId, i :: 0 <= i < |w.history| ==> !Pending(w, c, w.history[i].ticket))
    && (forall c: ClientId, d: ClientId, ticket: nat :: Pending(w, c, ticket) && Pending(w, d, ticket) ==> c == d)
  }

  ghost predicate Inv(start: nat, w: World) {
    StoreOk(w) && PcsOk(w) && TicketsOk(start, w) && UsedOnce(w)
  }

  lemma {:induction false} InitInv(w: World)
    requires Init(w)
    ensures Inv(w.db.counter, w)
  {
  }

  // ---------------------------------------------------------------- steps that do not commit

  ghost predicate Commits(w: World, s: Step) {
    Enabled(w, s) && s.Exec?
    && !Raises(w.clients[s.c].pc.seen, w.clients[s.c].pc.op) && (Merging(w.clients[s.c].pc.op) ==> !w.clients[s.c].pc.dirty)
  }

  /** One client, and at most the counter and the tickets. */
  ghost predicate QuietStep(w: World, w': World, c: ClientId) {
    && c in w.clients && w'.clients.Keys == w.clients.Keys
    && w'.db.blobs == w.db.blobs && w'.db.sets == w.db.sets && w.db.counter <= w'.db.counter
    && w'.history == w.history && w'.high == w.high && w.handed <= w'.handed
    && (forall d :: d in w.clients && d != c ==> w'.clients[d] == w.clients[d])
  }

  lemma {:induction false} QuietFrame(w: World, s: Step)
    requires Enabled(w, s) && !Commits(w, s)
    ensures QuietStep(w, Apply(w, s), s.c)
  {
  }

  lemma {:induction false} QuietKeepsPc(w: World, w': World, c: ClientId, pc: Pc)
    requires QuietStep(w, w', c) && PcOk(w, pc)
    ensures PcOk(w', pc)
  {
    assert forall id :: High(w', id) == High(w, id);
  }

  lemma {:induction false} NumberIsOk(w: World, c: ClientId)
    requires StoreOk(w) && UsedOnce(w) && c in w.clients && w.clients[c].pc.Got? && PcOk(w, w.clients[c].pc)
    ensures PcOk(NumberStep(w, c), NumberStep(w, c).clients[c].pc)
  {
  }

  lemma {:induction false} OwnPcOk(w: World, s: Step)
    requires StoreOk(w) && UsedOnce(w) && Enabled(w, s) && !Commits(w, s) && PcOk(w, w.clients[s.c].pc)
    ensures PcOk(Apply(w, s), Apply(w, s).clients[s.c].pc)
  {
    QuietFrame(w, s);
    if s.Number? {
      NumberIsOk(w, s.c);
    } else {
      QuietKeepsPc(w, Apply(w, s), s.c, w.clients[s.c].pc);
    }
  }

  lemma {:induction false} QuietPcsOk(w: World, s: Step)
    requires StoreOk(w) && UsedOnce(w) && PcsOk(w) && Enabled(w, s) && !Commits(w, s)
    ensures PcsOk(Apply(w, s))
  {
    var w' := Apply(w, s);
    QuietFrame(w, s);
    OwnPcOk(w, s);
    forall c | c in w'.clients ensures PcOk(w', w'.clients[c].pc) {
      if c != s.c {
        QuietKeepsPc(w, w', s.c, w.clients[c].pc);
      }
    }
  }

  lemma {:induction false} QuietPending(w: World, s: Step, c: ClientId, ticket: nat)
    requires Enabled(w, s) && !Commits(w, s) && Pending(Apply(w, s), c, ticket)
    ensures Pending(w, c, ticket) || (c == s.c && s.Number? && ticket == |w.handed|)
  {
  }

  lemma {:induction false} QuietTickets(start: nat, w: World, s: Step)
    requires TicketsOk(start, w) && Enabled(w, s) && !Commits(w, s)
    ensures TicketsOk(start, Apply(w, s))
  {
  }

  lemma {:induction false} PendingIsDrawn(w: World, c: ClientId, ticket: nat)
    requires PcsOk(w) && Pending(w, c, ticket)
    ensures ticket < |w.handed|
  {
    assert PcOk(w, w.clients[c].pc);
  }

  lemma {:induction false} QuietUsedOnce(w: World, s: Step)
    requires UsedOnce(w) && PcsOk(w) && Enabled(w, s) && !Commits(w, s)
    ensures UsedOnce(Apply(w, s))
  {
    var w' := Apply(w, s);
    QuietFrame(w, s);
    forall c: ClientId, i | 0 <= i < |w'.history| ensures !Pending(w', c, w'.history[i].ticket) {
      if Pending(w', c, w'.history[i].ticket) {
        QuietPending(w, s, c, w'.history[i].ticket);
      }
    }
    forall c: ClientId, d: ClientId, ticket: nat | Pending(w', c, ticket) && Pending(w', d, ticket) ensures c == d {
      QuietPending(w, s, c, ticket);
      QuietPending(w, s, d, ticket);
      if c != d {
        if Pending(w, c, ticket) { PendingIsDrawn(w, c, ticket); }
        if Pending(w, d, ticket) { PendingIsDrawn(w, d, ticket); }
      }
    }
  }

  lemma {:induction false} QuietInv(start: nat, w: World, s: Step)
    requires Inv(start, w) && Enabled(w, s) && !Commits(w, s)
    ensures Inv(start, Apply(w, s))
  {
    QuietFrame(w, s);
    QuietPcsOk(w, s);
    QuietTickets(start, w, s);
    QuietUsedOnce(w, s);
  }

  // ---------------------------------------------------------------- commits

  /** A commit changes the keys it touches and no other. */
  lemma {:induction false} UntouchedStay(w: World, pc: Pc, id: Id)
    requires pc.Numbered? && id !in Touched(w, pc)
    ensures After(w, pc).Lookup(id) == w.db.Lookup(id)
  {
    SentAt(w.db, pc.seen, pc.op, BaseOf(w, pc.ticket), id);
  }

  /** What it writes carries stamps of its ticket. */
  lemma {:induction false} TouchedStamps(w: World, pc: Pc, id: Id)
    requires pc.Numbered? && NumberedOk(w, pc) && Keyed(pc.seen) && !Raises(pc.seen, pc.op) && id in Touched(w, pc)
    ensures var after := After(w, pc).blobs; var ticket := w.handed[pc.ticket];
            if pc.op.Remove? then id !in after
            else id in after && after[id].id == id && ticket.base < after[id].atomicCounter <= ticket.base + ticket.n
  {
    var view := Db(pc.seen, w.db.sets, BaseOf(w, pc.ticket));
    SentAt(w.db, pc.seen, pc.op, BaseOf(w, pc.ticket), id);
    WrittenIsStamped(view, pc.op, id);
  }

  lemma {:induction false} TouchedAreKeys(w: World, pc: Pc)
    requires pc.Numbered?
    ensures Touched(w, pc) <= Keys(pc.op)
  {
    if pc.op.BatchIds? {
      MatchingMembers(pc.seen, pc.op.ids, pc.op.oldState);
    }
  }

  lemma {:induction false} CommitStoreOk(start: nat, w: World, c: ClientId)
    requires StoreOk(w) && PcsOk(w) && TicketsOk(start, w) && Commits(w, Exec(c))
    ensures StoreOk(Committed(w, c))
  {
    var pc := w.clients[c].pc;
    assert PcOk(w, pc);
    var after := After(w, pc);
    forall id | id in after.blobs ensures after.blobs[id].id == id && after.blobs[id].atomicCounter <= after.counter {
      if id in Touched(w, pc) {
        TouchedStamps(w, pc, id);
      } else {
        UntouchedStay(w, pc, id);
      }
    }
  }

  lemma {:induction false} TouchGrows(history: seq<Commit>, commit: Commit, since: nat, op: Op)
    requires since <= |history|
    ensures TouchedSince(history + [commit], since, op) <==> TouchedSince(history, since, op) || Meets(op, commit.written)
  {
    var longer := history + [commit];
    if TouchedSince(history, since, op) {
      var j :| since <= j < |history| && Meets(op, history[j].written);
      assert Meets(op, longer[j].written);
    }
    if Meets(op, commit.written) {
      assert Meets(op, longer[|history|].written);
    }
  }

  /** On the keys of a call that a commit does not touch, nothing changes. */
  lemma {:induction false} UntouchedKeys(w: World, c: ClientId, op: Op)
    requires StoreOk(w) && c in w.clients && w.clients[c].pc.Numbered? && !Meets(op, Touched(w, w.clients[c].pc))
    ensures Agree(w.db.blobs, Committed(w, c).db.blobs, Keys(op))
    ensures forall id :: id in Keys(op) ==> High(Committed(w, c), id) == High(w, id)
  {
    var pc := w.clients[c].pc;
    forall id | id in Keys(op)
      ensures After(w, pc).Lookup(id) == w.db.Lookup(id) && High(Committed(w, c), id) == High(w, id)
    {
      UntouchedStay(w, pc, id);
    }
    forall id | id in Keys(op)
      ensures id in w.db.blobs <==> id in After(w, pc).blobs
      ensures id in w.db.blobs ==> w.db.blobs[id] == After(w, pc).blobs[id]
    {
      assert After(w, pc).Lookup(id) == w.db.Lookup(id);
    }
  }

  lemma {:induction false} CommitKeepsPc(w: World, c: ClientId, client: Client)
    requires StoreOk(w) && PcsOk(w) && Commits(w, Exec(c)) && PcOk(w, client.pc)
    ensures PcOk(Committed(w, c), Touch(client, Touched(w, w.clients[c].pc)).pc)
  {
    var w' := Committed(w, c);
    var written := Touched(w, w.clients[c].pc);
    var pc := client.pc;
    if Active(pc) {
      TouchGrows(w.history, w'.history[|w.history|], pc.since, pc.op);
      if !Meets(pc.op, written) {
        UntouchedKeys(w, c, pc.op);
      }
      if pc.Numbered? {
        forall i | 0 <= i < pc.at ensures w'.history[i].ticket < pc.ticket {
          assert w'.history[i] == w.history[i];
        }
      }
    }
  }

  lemma {:induction false} CommitPending(w: World, c: ClientId, d: ClientId, ticket: nat)
    requires Commits(w, Exec(c)) && Pending(Committed(w, c), d, ticket)
    ensures Pending(w, d, ticket) && d != c
  {
  }

  lemma {:induction false} CommitUsedOnce(w: World, c: ClientId)
    requires UsedOnce(w) && PcsOk(w) && Commits(w, Exec(c))
    ensures UsedOnce(Committed(w, c))
  {
    var w' := Committed(w, c);
    var pc := w.clients[c].pc;
    assert PcOk(w, pc) && Pending(w, c, pc.ticket);
    forall d: ClientId, i | 0 <= i < |w'.history| ensures !Pending(w', d, w'.history[i].ticket) {
      if Pending(w', d, w'.history[i].ticket) {
        CommitPending(w, c, d, w'.history[i].ticket);
      }
    }
    forall d: ClientId, e: ClientId, ticket: nat | Pending(w', d, ticket) && Pending(w', e, ticket) ensures d == e {
      CommitPending(w, c, d, ticket);
      CommitPending(w, c, e, ticket);
    }
  }

  lemma {:induction false} CommitPcsOk(w: World, c: ClientId)
    requires StoreOk(w) && PcsOk(w) && Commits(w, Exec(c))
    ensures PcsOk(Committed(w, c))
  {
    var w' := Committed(w, c);
    forall d | d in w'.clients ensures PcOk(w', w'.clients[d].pc) {
      if d != c {
        CommitKeepsPc(w, c, w.clients[d]);
        assert w'.clients[d] == Touch(w.clients[d], Touched(w, w.clients[c].pc));
      }
    }
  }

  lemma {:induction false} CommitTickets(start: nat, w: World, c: ClientId)
    requires TicketsOk(start, w) && Commits(w, Exec(c))
    ensures TicketsOk(start, Committed(w, c))
  {
  }

  lemma {:induction false} CommitInv(start: nat, w: World, c: ClientId)
    requires Inv(start, w) && Commits(w, Exec(c))
    ensures Inv(start, Committed(w, c))
  {
    CommitStoreOk(start, w, c);
    CommitPcsOk(w, c);
    CommitTickets(start, w, c);
    CommitUsedOnce(w, c);
  }

  lemma {:induction false} StepInv(start: nat, w: World, s: Step)
    requires Inv(start, w) && Enabled(w, s)
    ensures Inv(start, Apply(w, s))
  {
    if Commits(w, s) {
      CommitInv(start, w, s.c);
    } else {
      QuietInv(start, w, s);
    }
  }

  lemma {:induction false} RunInv(start: nat, w: World, steps: seq<Step>, w': World)
    requires Inv(start, w) && Reaches(w, steps, w')
    ensures Inv(start, w')
    decreases |steps|
  {
    if steps != [] {
      StepInv(start, w, steps[0]);
      RunInv(start, Apply(w, steps[0]), steps[1..], w');
    }
  }

  lemma {:induction false} StepHistory(w: World, s: Step)
    requires Enabled(w, s)
    ensures Apply(w, s).history == w.history + if Commits(w, s) then [Committed(w, s.c).history[|w.history|]] else []
    ensures w.handed <= Apply(w, s).handed
  {
  }

  lemma {:induction false} RunHistory(w: World, steps: seq<Step>, w': World)
    requires Reaches(w, steps, w')
    ensures w.history <= w'.history && w.handed <= w'.handed
    decreases |steps|
  {
    if steps != [] {
      StepHistory(w, steps[0]);
      RunHistory(Apply(w, steps[0]), steps[1..], w');
    }
  }

  // ---------------------------------------------------------------- stamps

  predicate InTicket(w: World, commit: Commit, stamp: nat) {
    commit.ticket < |w.handed| && w.handed[commit.ticket].base < stamp <= w.handed[commit.ticket].base + w.handed[commit.ticket].n
  }

  /** The stored counter is from before the run, or from the ticket of a commit
      that wrote the program. */
  ghost predicate StampedBy(start: nat, w: World, id: Id) {
    id in w.db.blobs && w.db.blobs[id].atomicCounter > start ==>
      exists i :: 0 <= i < |w.history| && id in w.history[i].written && InTicket(w, w.history[i], w.db.blobs[id].atomicCounter)
  }

  lemma {:induction false} StampedByCarries(start: nat, w: World, w': World, id: Id)
    requires StampedBy(start, w, id) && w.history <= w'.history && w.handed <= w'.handed && w'.db.Lookup(id) == w.db.Lookup(id)
    ensures StampedBy(start, w', id)
  {
    if id in w.db.blobs && w.db.blobs[id].atomicCounter > start {
      var i :| 0 <= i < |w.history| && id in w.history[i].written && InTicket(w, w.history[i], w.db.blobs[id].atomicCounter);
      assert w'.history[i] == w.history[i];
    }
  }

  lemma {:induction false} StepStampedBy(start: nat, w: World, s: Step, id: Id)
    requires Inv(start, w) && Enabled(w, s) && StampedBy(start, w, id)
    ensures StampedBy(start, Apply(w, s), id)
  {
    var w' := Apply(w, s);
    StepHistory(w, s);
    if Commits(w, s) {
      var pc := w.clients[s.c].pc;
      assert PcOk(w, pc);
      if id in Touched(w, pc) {
        TouchedStamps(w, pc, id);
        assert w'.history[|w.history|].written == Touched(w, pc);
      } else {
        UntouchedStay(w, pc, id);
        StampedByCarries(start, w, w', id);
      }
    } else {
      QuietFrame(w, s);
      StampedByCarries(start, w, w', id);
    }
  }

  lemma {:induction false} RunStampedBy(start: nat, w: World, steps: seq<Step>, w': World, id: Id)
    requires Inv(start, w) && Reaches(w, steps, w') && StampedBy(start, w, id)
    ensures StampedBy(start, w', id)
    decreases |steps|
  {
    if steps != [] {
      StepStampedBy(start, w, steps[0], id);
      StepInv(start, w, steps[0]);
      RunStampedBy(start, Apply(w, steps[0]), steps[1..], w', id);
    }
  }

  /** Over every run of any calls, whoever owns what: the stamps ever drawn are
      distinct, newer than anything stored at the start and bounded by the
      counter; no two commits share a ticket; and a stored counter is bounded by
      the global one and, if it is new, was drawn by a commit that wrote the
      program. */
  lemma {:induction false} CountersAreUniqueAndBounded(w0: World, steps: seq<Step>, w: World)
    requires Init(w0) && Reaches(w0, steps, w)
    ensures forall k :: 0 <= k < |w.handed| ==>
              w0.db.counter <= w.handed[k].base && w.handed[k].base + w.handed[k].n <= w.db.counter
    ensures forall j, k :: 0 <= j < k < |w.handed| ==> w.handed[j].base + w.handed[j].n <= w.handed[k].base
    ensures forall i, j :: 0 <= i < j < |w.history| ==> w.history[i].ticket != w.history[j].ticket
    ensures forall id :: id in w.db.blobs ==> w.db.blobs[id].atomicCounter <= w.db.counter && StampedBy(w0.db.counter, w, id)
  {
    InitInv(w0);
    RunInv(w0.db.counter, w0, steps, w);
    forall id | id in w.db.blobs ensures StampedBy(w0.db.counter, w, id) {
      RunStampedBy(w0.db.counter, w0, steps, w, id);
    }
  }

  // ---------------------------------------------------------------- the order of stamps

  /** A clean commit drew its ticket after every earlier commit to its keys. */
  ghost predicate CleanOrdered(history: seq<Commit>) {
    forall i, j :: 0 <= i < j < |history| && history[j].clean && !(history[i].written !! history[j].written) ==>
      history[i].ticket < history[j].ticket
  }

  lemma {:induction false} CleanIsLater(w: World, pc: Pc, i: nat)
    requires pc.Numbered? && PcOk(w, pc) && !pc.dirty && i < |w.history| && Meets(pc.op, w.history[i].written)
    ensures w.history[i].ticket < pc.ticket
  {
    assert forall j :: pc.since <= j < |w.history| ==> !Meets(pc.op, w.history[j].written);
  }

  lemma {:induction false} StepOrders(start: nat, w: World, s: Step)
    requires Inv(start, w) && Enabled(w, s) && CleanOrdered(w.history)
    ensures CleanOrdered(Apply(w, s).history)
  {
    StepHistory(w, s);
    if Commits(w, s) {
      var pc := w.clients[s.c].pc;
      assert PcOk(w, pc);
      TouchedAreKeys(w, pc);
      forall i | 0 <= i < |w.history| && !pc.dirty && !(w.history[i].written !! Touched(w, pc))
        ensures w.history[i].ticket < pc.ticket
      {
        CleanIsLater(w, pc, i);
      }
    }
  }

  lemma {:induction false} RunOrders(start: nat, w: World, steps: seq<Step>, w': World)
    requires Inv(start, w) && Reaches(w, steps, w') && CleanOrdered(w.history)
    ensures CleanOrdered(w'.history)
    decreases |steps|
  {
    if steps != [] {
      StepInv(start, w, steps[0]);
      StepOrders(start, w, steps[0]);
      RunOrders(start, Apply(w, steps[0]), steps[1..], w');
    }
  }

  /** Nobody else ever committed to the program during a call that wrote it. */
  ghost predicate Owned(history: seq<Commit>, id: Id) {
    forall i :: 0 <= i < |history| && id in history[i].written ==> history[i].clean
  }

  /** Although tickets are drawn before the commit, under ownership the commits
      to one program carry strictly increasing stamps in commit order: all of an
      earlier ticket are below all of a later one. */
  lemma {:induction false} StampsIncreasePerKey(w0: World, steps: seq<Step>, w: World, id: Id)
    requires Init(w0) && Reaches(w0, steps, w) && Owned(w.history, id)
    ensures forall i, j :: 0 <= i < j < |w.history| && id in w.history[i].written && id in w.history[j].written ==>
              && w.history[i].ticket < w.history[j].ticket < |w.handed|
              && w.handed[w.history[i].ticket].base + w.handed[w.history[i].ticket].n <= w.handed[w.history[j].ticket].base
  {
    InitInv(w0);
    RunInv(w0.db.counter, w0, steps, w);
    RunOrders(w0.db.counter, w0, steps, w);
    forall i, j | 0 <= i < j < |w.history| && id in w.history[i].written && id in w.history[j].written
      ensures w.history[i].ticket < w.history[j].ticket
    {
      assert !(w.history[i].written !! w.history[j].written);
    }
  }

  /** The commits before a ticket was drawn have earlier ones, and no commit has
      this one. */
  lemma {:induction false} TicketIsItsOwn(w: World, c: ClientId, i: nat)
    requires PcsOk(w) && UsedOnce(w) && c in w.clients && w.clients[c].pc.Numbered? && i < |w.history|
    ensures var pc := w.clients[c].pc;
            && w.history[i].ticket != pc.ticket && w.history[i].ticket < |w.handed| && pc.ticket < |w.handed|
            && (i < pc.at ==> w.history[i].ticket < pc.ticket)
  {
    assert PcOk(w, w.clients[c].pc) && Pending(w, c, w.clients[c].pc.ticket);
  }

  lemma {:induction false} LowersWhenLater(start: nat, w: World, c: ClientId, id: Id, i: nat)
    requires Inv(start, w) && Commits(w, Exec(c)) && i < |w.history|
    requires id in w.db.blobs && id in Touched(w, w.clients[c].pc) && !w.clients[c].pc.op.Remove?
    requires InTicket(w, w.history[i], w.db.blobs[id].atomicCounter)
    ensures var pc := w.clients[c].pc; var after := After(w, pc).blobs;
            id in after && (after[id].atomicCounter < w.db.blobs[id].atomicCounter <==> w.history[i].ticket > pc.ticket)
  {
    var pc := w.clients[c].pc;
    assert PcOk(w, pc);
    TouchedStamps(w, pc, id);
    TicketIsItsOwn(w, c, i);
    TicketsApart(start, w, w.history[i].ticket, pc.ticket, w.db.blobs[id].atomicCounter);
  }

  lemma {:induction false} NewerThanStart(start: nat, w: World, c: ClientId, id: Id)
    requires Inv(start, w) && Commits(w, Exec(c)) && id in Touched(w, w.clients[c].pc) && !w.clients[c].pc.op.Remove?
    ensures var after := After(w, w.clients[c].pc).blobs; id in after && start < after[id].atomicCounter
  {
    var pc := w.clients[c].pc;
    assert PcOk(w, pc);
    TouchedStamps(w, pc, id);
  }

  /** Without ownership: a commit stores a lower stamp than the one it overwrites
      exactly when that one was drawn later and committed since. */
  lemma {:induction false} LowersIff(w0: World, steps: seq<Step>, w: World, c: ClientId, id: Id)
    requires Init(w0) && Reaches(w0, steps, w) && Commits(w, Exec(c))
    requires id in w.db.blobs && id in Touched(w, w.clients[c].pc) && !w.clients[c].pc.op.Remove?
    ensures id in Apply(w, Exec(c)).db.blobs
    ensures Apply(w, Exec(c)).db.blobs[id].atomicCounter < w.db.blobs[id].atomicCounter
            <==> exists i :: w.clients[c].pc.at <= i < |w.history| && id in w.history[i].written
                             && InTicket(w, w.history[i], w.db.blobs[id].atomicCounter) && w.history[i].ticket > w.clients[c].pc.ticket
  {
    var pc, start := w.clients[c].pc, w0.db.counter;
    InitInv(w0);
    RunInv(start, w0, steps, w);
    RunStampedBy(start, w0, steps, w, id);
    NewerThanStart(start, w, c, id);
    forall i | 0 <= i < |w.history| && InTicket(w, w.history[i], w.db.blobs[id].atomicCounter)
      ensures After(w, pc).blobs[id].atomicCounter < w.db.blobs[id].atomicCounter <==> w.history[i].ticket > pc.ticket
      ensures w.history[i].ticket > pc.ticket ==> pc.at <= i
    {
      LowersWhenLater(start, w, c, id, i);
      TicketIsItsOwn(w, c, i);
    }
  }

  lemma {:induction false} TicketsApart(start: nat, w: World, j: nat, k: nat, stamp: nat)
    requires TicketsOk(start, w) && j < |w.handed| && k < |w.handed| && j != k
    requires w.handed[j].base < stamp <= w.handed[j].base + w.handed[j].n
    ensures if j < k then stamp <= w.handed[k].base else w.handed[k].base + w.handed[k].n < stamp
  {
  }

  /** A client with nothing to do draws a ticket for an exclusive write. */
  function Drawn(w: World, c: ClientId, p: Program): World
    requires c in w.clients
  {
    w.(db := w.db.(counter := w.db.counter + 1), handed := w.handed + [Ticket(w.db.counter, 1)],
       clients := w.clients[c := Client(
         Numbered(Exclusive(p), false, |w.history|, w.db.blobs, |w.handed|, |w.history|), w.clients[c].copies[p.id := p])])
  }

  lemma {:induction false} Starts(w: World, c: ClientId, p: Program) returns (steps: seq<Step>, w': World)
    requires c in w.clients && w.clients[c].pc.Idle? && p.atomicCounter == 0
    ensures Reaches(w, steps, w')
    ensures w' == SetClient(w, c, Client(Starting(Exclusive(p)), w.clients[c].copies[p.id := p]))
  {
    var w1 := Apply(w, Create(c, p));
    w' := Apply(w1, Begin(c, Exclusive(p)));
    assert Reaches(w', [], w');
    steps := ReachFirst(w1, Begin(c, Exclusive(p)), [], w');
    steps := ReachFirst(w, Create(c, p), steps, w');
  }

  lemma {:induction false} Reads(w: World, c: ClientId) returns (steps: seq<Step>, w': World)
    requires c in w.clients && w.clients[c].pc.Starting?
    ensures Reaches(w, steps, w')
    ensures w' == SetPc(w, c, Got(w.clients[c].pc.op, false, |w.history|, w.db.blobs))
  {
    var w1 := Apply(w, Watch(c));
    w' := Apply(w1, Read(c));
    assert Reaches(w', [], w');
    steps := ReachFirst(w1, Read(c), [], w');
    steps := ReachFirst(w, Watch(c), steps, w');
  }

  lemma {:induction false} ReachOne(w: World, one: seq<Step>, mid: World, s: Step)
    requires Reaches(w, one, mid) && Enabled(mid, s)
    ensures Reaches(w, one + [s], Apply(mid, s))
  {
    var after := Apply(mid, s);
    assert [s][1..] == [] && Reaches(after, [], after);
    ReachOn(w, one, mid, [s], after);
  }

  lemma {:induction false} Draws(w: World, c: ClientId, p: Program) returns (steps: seq<Step>)
    requires c in w.clients && w.clients[c].pc.Idle? && p.atomicCounter == 0
    ensures Reaches(w, steps, Drawn(w, c, p))
  {
    var one, w1 := Starts(w, c, p);
    var two, w2 := Reads(w1, c);
    ReachOn(w, one, w1, two, w2);
    ReachOne(w, one + two, w2, Number(c));
    steps := one + two + [Number(c)];
    DrawnIs(w, c, p, w2);
  }

  lemma {:induction false} DrawnIs(w: World, c: ClientId, p: Program, w': World)
    requires c in w.clients
    requires w' == SetClient(w, c, Client(Got(Exclusive(p), false, |w.history|, w.db.blobs), w.clients[c].copies[p.id := p]))
    ensures Apply(w', Number(c)) == Drawn(w, c, p)
  {
    assert Apply(w', Number(c)).clients == Drawn(w, c, p).clients;
  }

  lemma {:induction false} ReachFirst(w: World, s: Step, rest: seq<Step>, w': World) returns (steps: seq<Step>)
    requires Enabled(w, s) && Reaches(Apply(w, s), rest, w')
    ensures Reaches(w, steps, w')
  {
    steps := [s] + rest;
    assert steps[1..] == rest;
  }

  lemma {:induction false} ReachOn(w: World, one: seq<Step>, mid: World, two: seq<Step>, w': World)
    requires Reaches(w, one, mid) && Reaches(mid, two, w')
    ensures Reaches(w, one + two, w')
    decreases |one|
  {
    if one == [] {
      assert one + two == two;
    } else {
      assert (one + two)[1..] == one[1..] + two;
      ReachOn(Apply(w, one[0]), one[1..], mid, two, w');
    }
  }

  lemma {:induction false} SetTwice(w: World, c: ClientId, a: Client, b: Client)
    requires c in w.clients
    ensures SetClient(SetClient(w, c, a), c, b) == SetClient(w, c, b)
  {
    assert w.clients[c := a][c := b] == w.clients[c := b];
  }

  lemma {:induction false} Edits(w: World, c: ClientId, p: Program) returns (steps: seq<Step>, w': World)
    requires c in w.clients && p.id in w.db.blobs && p.atomicCounter == w.db.blobs[p.id].atomicCounter
    ensures Reaches(w, steps, w') && w' == SetClient(w, c, w.clients[c].(copies := w.clients[c].copies[p.id := p]))
  {
    var fetched := w.clients[c].(copies := w.clients[c].copies[p.id := w.db.blobs[p.id]]);
    var w1 := SetClient(w, c, fetched);
    assert Apply(w, Fetch(c, p.id)) == w1;
    w' := Apply(w1, Edit(c, p));
    SetTwice(w, c, fetched, w'.clients[c]);
    assert fetched.copies[p.id := p] == w.clients[c].copies[p.id := p];
    assert Reaches(w', [], w');
    steps := ReachFirst(w1, Edit(c, p), [], w');
    steps := ReachFirst(w, Fetch(c, p.id), steps, w');
  }

  /** An idle client can fetch any stored program, change anything of it but its
      counter, and set out to write it by any call. */
  lemma {:induction false} AnyEditCanBeBrought(w: World, c: ClientId, p: Program, op: Op) returns (steps: seq<Step>, w': World)
    requires c in w.clients && w.clients[c].pc.Idle? && Payload(op) == [p]
    requires p.id in w.db.blobs && p.atomicCounter == w.db.blobs[p.id].atomicCounter
    ensures Reaches(w, steps, w') && w'.db == w.db
    ensures c in w'.clients && w'.clients[c] == Client(Starting(op), w.clients[c].copies[p.id := p])
  {
    var one, w1 := Edits(w, c, p);
    w' := Apply(w1, Begin(c, op));
    ReachOne(w, one, w1, Begin(c, op));
    steps := one + [Begin(c, op)];
  }

  /** What an exclusive write stores. */
  lemma {:induction false} ExclusiveStores(w: World, c: ClientId)
    requires c in w.clients && w.clients[c].pc.Numbered? && w.clients[c].pc.op.Exclusive?
    ensures var pc := w.clients[c].pc;
            Commits(w, Exec(c)) && Committed(w, c).db.Lookup(pc.op.p.id) == Some(Stamp(pc.op.p, BaseOf(w, pc.ticket) + 1))
  {
    var pc := w.clients[c].pc;
    SentAt(w.db, pc.seen, pc.op, BaseOf(w, pc.ticket), pc.op.p.id);
  }

  /** One of two exclusive writers commits; the other does not notice. */
  lemma {:induction false} OneCommits(w: World, b: ClientId, a: ClientId)
    requires a in w.clients && b in w.clients && a != b
    requires w.clients[a].pc.Numbered? && w.clients[a].pc.op.Exclusive?
    requires w.clients[b].pc.Numbered? && w.clients[b].pc.op.Exclusive?
    ensures Enabled(w, Exec(b)) && Apply(w, Exec(b)) == Committed(w, b) && a in Committed(w, b).clients
    ensures var pc, pc' := w.clients[a].pc, Committed(w, b).clients[a].pc;
            pc'.Numbered? && pc'.op == pc.op && pc'.ticket == pc.ticket && Committed(w, b).handed == w.handed
    ensures var pc := w.clients[b].pc;
            Committed(w, b).db.Lookup(pc.op.p.id) == Some(Stamp(pc.op.p, BaseOf(w, pc.ticket) + 1))
  {
    ExclusiveStores(w, b);
  }

  /** Client c is about to write p exclusively with this stamp. */
  predicate Armed(w: World, c: ClientId, p: Program, stamp: nat) {
    c in w.clients && w.clients[c].pc.Numbered? && w.clients[c].pc.op == Exclusive(p) && BaseOf(w, w.clients[c].pc.ticket) + 1 == stamp
  }

  lemma {:induction false} BothDraw(w: World, a: ClientId, b: ClientId, p: Program, q: Program) returns (steps: seq<Step>, w': World)
    requires Init(w) && a in w.clients && b in w.clients && a != b && p.atomicCounter == q.atomicCounter == 0
    ensures Reaches(w, steps, w') && Armed(w', a, p, w.db.counter + 1) && Armed(w', b, q, w.db.counter + 2)
  {
    var w1 := Drawn(w, a, p);
    w' := Drawn(w1, b, q);
    var one := Draws(w, a, p);
    var two := Draws(w1, b, q);
    ReachOn(w, one, w1, two, w');
    steps := one + two;
  }

  lemma {:induction false} ArmedStores(w: World, c: ClientId, p: Program, stamp: nat)
    requires Armed(w, c, p, stamp)
    ensures Enabled(w, Exec(c)) && Apply(w, Exec(c)).db.Lookup(p.id) == Some(Stamp(p, stamp))
  {
    ExclusiveStores(w, c);
  }

  lemma {:induction false} ArmedStays(w: World, b: ClientId, q: Program, other: nat, a: ClientId, p: Program, stamp: nat)
    requires Armed(w, b, q, other) && Armed(w, a, p, stamp) && a != b
    ensures Enabled(w, Exec(b)) && Armed(Apply(w, Exec(b)), a, p, stamp)
  {
    OneCommits(w, b, a);
  }

  /** Two exclusive writers of one program that nobody keeps apart: the one that
      drew the lower stamp commits last, and the newer version is gone. */
  lemma {:induction false} OvertakenStoresLower(w: World, a: ClientId, b: ClientId, p: Program, q: Program)
      returns (steps: seq<Step>, mid: World)
    requires Init(w) && a in w.clients && b in w.clients && a != b
    requires p.id == q.id && p.atomicCounter == q.atomicCounter == 0
    ensures Reaches(w, steps, mid) && mid.db.Lookup(p.id) == Some(Stamp(q, w.db.counter + 2))
    ensures Enabled(mid, Exec(a)) && Apply(mid, Exec(a)).db.Lookup(p.id) == Some(Stamp(p, w.db.counter + 1))
  {
    var low, high := w.db.counter + 1, w.db.counter + 2;
    var one, w1 := BothDraw(w, a, b, p, q);
    ArmedStores(w1, b, q, high);
    ArmedStays(w1, b, q, high, a, p, low);
    mid := Apply(w1, Exec(b));
    ReachOne(w, one, w1, Exec(b));
    steps := one + [Exec(b)];
    ArmedStores(mid, a, p, low);
  }

  // ---------------------------------------------------------------- serialisability

  function SerialRun(db: Db, history: seq<Commit>): Option<Db>
    decreases |history|
  {
    if history == [] then Some(db)
    else
      var commit := history[|history| - 1];
      match SerialRun(db, history[..|history| - 1])
      case None => None
      case Some(mid) => if Raises(mid.blobs, commit.op) then None else Some(StoreCalls.Serial(mid, commit.op, commit.base))
  }

  /** The blind calls that depend on a read owned what they read. */
  ghost predicate ReadsOwned(history: seq<Commit>) {
    forall i :: 0 <= i < |history| && ReadsFirst(history[i].op) ==> history[i].clean
  }

  ghost predicate SerialInv(start: Db, w: World) {
    ReadsOwned(w.history) ==> SerialRun(start, w.history) == Some(w.db.(counter := start.counter))
  }

  /** The heart of it: what is sent is what the call run alone now would do. */
  lemma {:induction false} CommitIsSerial(w: World, c: ClientId)
    requires PcsOk(w) && Commits(w, Exec(c))
    requires ReadsFirst(w.clients[c].pc.op) ==> !w.clients[c].pc.dirty
    ensures var pc := w.clients[c].pc;
            !Raises(w.db.blobs, pc.op) && After(w, pc) == StoreCalls.Serial(w.db, pc.op, BaseOf(w, pc.ticket))
  {
    var pc := w.clients[c].pc;
    assert PcOk(w, pc);
    if Merging(pc.op) || ReadsFirst(pc.op) {
      LocalWrites(pc.seen, w.db.blobs, pc.op);
      CurrentIsSerial(w.db, pc.seen, pc.op, BaseOf(w, pc.ticket));
    } else {
      BlindIsSerial(w.db, pc.seen, pc.op, BaseOf(w, pc.ticket));
    }
  }

  lemma {:induction false} CommitSerialInv(start: Db, w: World, c: ClientId)
    requires PcsOk(w) && Commits(w, Exec(c)) && SerialInv(start, w)
    ensures SerialInv(start, Committed(w, c))
  {
    var w' := Committed(w, c);
    var n := |w.history|;
    if ReadsOwned(w'.history) {
      assert w'.history[..n] == w.history;
      forall i | 0 <= i < n && ReadsFirst(w.history[i].op) ensures w.history[i].clean {
        assert w'.history[i] == w.history[i];
      }
      assert w'.history[n].op == w.clients[c].pc.op;
      CommitIsSerial(w, c);
    }
  }

  lemma {:induction false} RunSerialInv(start: Db, w: World, steps: seq<Step>, w': World)
    requires Inv(start.counter, w) && Reaches(w, steps, w') && SerialInv(start, w)
    ensures SerialInv(start, w')
    decreases |steps|
  {
    if steps != [] {
      StepInv(start.counter, w, steps[0]);
      if Commits(w, steps[0]) {
        CommitSerialInv(start, w, steps[0].c);
      } else {
        QuietFrame(w, steps[0]);
      }
      RunSerialInv(start, Apply(w, steps[0]), steps[1..], w');
    }
  }

  /** Serialisability, no lost update: after any interleaving the stored
      programs and status sets are those of the committed calls run one after
      the other in commit order, each merging onto what was stored then. Of the
      blind calls only those that depend on a read must own what they read. */
  lemma {:induction false} Serialisable(w0: World, steps: seq<Step>, w: World)
    requires Init(w0) && Reaches(w0, steps, w) && ReadsOwned(w.history)
    ensures SerialRun(w0.db, w.history) == Some(w.db.(counter := w0.db.counter))
  {
    InitInv(w0);
    RunSerialInv(w0.db, w0, steps, w);
  }

  /** An EXEC is refused exactly when somebody committed to the same key after
      the client's WATCH. */
  lemma {:induction false} ExecFailsIff(w0: World, steps: seq<Step>, w: World, c: ClientId)
    requires Init(w0) && Reaches(w0, steps, w)
    requires Enabled(w, Exec(c)) && Merging(w.clients[c].pc.op) && !Raises(w.clients[c].pc.seen, w.clients[c].pc.op)
    ensures Apply(w, Exec(c)).history == w.history <==> TouchedSince(w.history, w.clients[c].pc.since, w.clients[c].pc.op)
  {
    InitInv(w0);
    RunInv(w0.db.counter, w0, steps, w);
    assert PcOk(w, w.clients[c].pc);
    StepHistory(w, Exec(c));
  }

  // ---------------------------------------------------------------- merging writes only add

  /** No in-memory copy of an owned program is newer than its last version. */
  ghost predicate CopiesOld(w: World, client: Client, id: Id) {
    && (id in client.copies ==> client.copies[id].id == id && client.copies[id].atomicCounter <= High(w, id))
    && (!client.pc.Idle? ==> forall p :: p in Payload(client.pc.op) && p.id == id ==> p.atomicCounter <= High(w, id))
  }

  ghost predicate AllCopiesOld(w: World, id: Id) {
    Owned(w.history, id) ==> forall c :: c in w.clients ==> CopiesOld(w, w.clients[c], id)
  }

  lemma {:induction false} OwnStepCopies(w: World, s: Step, id: Id)
    requires StoreOk(w) && Enabled(w, s) && !Commits(w, s) && CopiesOld(w, w.clients[s.c], id)
    ensures CopiesOld(w, Apply(w, s).clients[s.c], id)
  {
  }

  /** An owned commit only raises the counter of a program. */
  lemma {:induction false} OwnedRaises(w: World, c: ClientId, id: Id)
    requires StoreOk(w) && PcsOk(w) && Commits(w, Exec(c))
    requires id in Touched(w, w.clients[c].pc) ==> !w.clients[c].pc.dirty
    ensures High(w, id) <= High(Committed(w, c), id)
    ensures id in w.db.blobs && id in After(w, w.clients[c].pc).blobs && id in Touched(w, w.clients[c].pc) ==>
              w.db.blobs[id].atomicCounter < After(w, w.clients[c].pc).blobs[id].atomicCounter
  {
    var pc := w.clients[c].pc;
    assert PcOk(w, pc);
    if id in Touched(w, pc) {
      TouchedAreKeys(w, pc);
      TouchedStamps(w, pc, id);
    } else {
      UntouchedStay(w, pc, id);
    }
  }

  lemma {:induction false} OwnedBefore(history: seq<Commit>, more: seq<Commit>, id: Id)
    requires Owned(history + more, id)
    ensures Owned(history, id) && forall i :: 0 <= i < |more| && id in more[i].written ==> more[i].clean
  {
    var all := history + more;
    forall i | 0 <= i < |history| && id in history[i].written ensures history[i].clean {
      assert all[i] == history[i];
    }
    forall i | 0 <= i < |more| && id in more[i].written ensures more[i].clean {
      assert all[|history| + i] == more[i];
    }
  }

  lemma {:induction false} CopiesStayOld(w: World, w': World, client: Client, client': Client, id: Id)
    requires CopiesOld(w, client, id) && High(w, id) <= High(w', id) && client'.copies == client.copies
    requires client'.pc.Idle? || (!client.pc.Idle? && client'.pc.op == client.pc.op)
    ensures CopiesOld(w', client', id)
  {
  }

  lemma {:induction false} CommitCopies(w: World, c: ClientId, id: Id)
    requires StoreOk(w) && PcsOk(w) && Commits(w, Exec(c)) && (id in Touched(w, w.clients[c].pc) ==> !w.clients[c].pc.dirty)
    requires forall d :: d in w.clients ==> CopiesOld(w, w.clients[d], id)
    ensures forall d :: d in w.clients ==> d in Committed(w, c).clients && CopiesOld(Committed(w, c), Committed(w, c).clients[d], id)
  {
    OwnedRaises(w, c, id);
    var w' := Committed(w, c);
    forall d | d in w.clients ensures d in w'.clients && CopiesOld(w', w'.clients[d], id) {
      CopiesStayOld(w, w', w.clients[d], w'.clients[d], id);
    }
  }

  lemma {:induction false} QuietCopies(w: World, s: Step, id: Id)
    requires StoreOk(w) && Enabled(w, s) && !Commits(w, s)
    requires forall d :: d in w.clients ==> CopiesOld(w, w.clients[d], id)
    ensures forall d :: d in w.clients ==> d in Apply(w, s).clients && CopiesOld(Apply(w, s), Apply(w, s).clients[d], id)
  {
    QuietFrame(w, s);
    OwnStepCopies(w, s, id);
    var w' := Apply(w, s);
    forall d | d in w.clients ensures d in w'.clients && CopiesOld(w', w'.clients[d], id) {
      if d != s.c {
        CopiesStayOld(w, w', w.clients[d], w'.clients[d], id);
      }
    }
  }

  lemma {:induction false} OwnedStep(w: World, s: Step, history: seq<Commit>, id: Id)
    requires Enabled(w, s) && Apply(w, s).history <= history && Owned(history, id)
    ensures Owned(w.history, id) && Owned(Apply(w, s).history, id)
    ensures Commits(w, s) && id in Touched(w, w.clients[s.c].pc) ==> !w.clients[s.c].pc.dirty
  {
    StepHistory(w, s);
    var next := Apply(w, s).history;
    assert history == next + history[|next|..] && next == w.history + next[|w.history|..];
    OwnedBefore(next, history[|next|..], id);
    OwnedBefore(w.history, next[|w.history|..], id);
    assert Commits(w, s) ==> next[|w.history|] == Committed(w, s.c).history[|w.history|];
  }

  lemma {:induction false} StepCopies(w: World, s: Step, id: Id)
    requires StoreOk(w) && PcsOk(w) && Enabled(w, s) && AllCopiesOld(w, id)
    ensures AllCopiesOld(Apply(w, s), id)
  {
    if Owned(Apply(w, s).history, id) {
      OwnedStep(w, s, Apply(w, s).history, id);
      if Commits(w, s) {
        CommitCopies(w, s.c, id);
      } else {
        QuietCopies(w, s, id);
      }
    }
  }

  lemma {:induction false} RunCopies(start: nat, w: World, steps: seq<Step>, w': World, id: Id)
    requires Inv(start, w) && Reaches(w, steps, w') && AllCopiesOld(w, id)
    ensures AllCopiesOld(w', id)
    decreases |steps|
  {
    if steps != [] {
      StepCopies(w, steps[0], id);
      StepInv(start, w, steps[0]);
      RunCopies(start, Apply(w, steps[0]), steps[1..], w', id);
    }
  }

  /** `later` has all of `earlier`, and a higher counter if it is not the same. */
  ghost predicate Grown(earlier: Program, later: Program) {
    && Extends(earlier, later)
    && (earlier == later || earlier.atomicCounter < later.atomicCounter)
  }

  ghost predicate GrownAt(before: Db, after: Db, id: Id) {
    id in before.blobs ==> id in after.blobs && Grown(before.blobs[id], after.blobs[id])
  }

  lemma {:induction false} MergeAloneGrows(db: Db, op: Op, base: nat)
    requires Merging(op) && !Raises(db.blobs, op) && op.p.id in db.blobs
    requires op.p.atomicCounter <= db.blobs[op.p.id].atomicCounter
    ensures var after := StoreCalls.Serial(db, op, base).blobs;
            op.p.id in after && Extends(db.blobs[op.p.id], after[op.p.id])
  {
    OldCopyOnlyAdds(db.blobs[op.p.id], op.p);
  }

  lemma {:induction false} MergingCommitGrows(w: World, c: ClientId, id: Id)
    requires StoreOk(w) && PcsOk(w) && Commits(w, Exec(c)) && Merging(w.clients[c].pc.op)
    requires CopiesOld(w, w.clients[c], id)
    ensures GrownAt(w.db, After(w, w.clients[c].pc), id)
  {
    var pc := w.clients[c].pc;
    OwnedRaises(w, c, id);
    if id in w.db.blobs {
      if id in Touched(w, pc) {
        CommitIsSerial(w, c);
        assert pc.op.p in Payload(pc.op);
        MergeAloneGrows(w.db, pc.op, BaseOf(w, pc.ticket));
      } else {
        UntouchedStay(w, pc, id);
      }
    }
  }

  /** From commit `from` on only merging calls write the program. */
  ghost predicate OnlyMerged(history: seq<Commit>, from: nat, id: Id) {
    forall i :: from <= i < |history| && id in history[i].written ==> Merging(history[i].op)
  }

  lemma {:induction false} StepGrows(w: World, s: Step, id: Id)
    requires StoreOk(w) && PcsOk(w) && Enabled(w, s) && CopiesOld(w, w.clients[s.c], id)
    requires Commits(w, s) && id in Touched(w, w.clients[s.c].pc) ==> Merging(w.clients[s.c].pc.op)
    ensures GrownAt(w.db, Apply(w, s).db, id)
  {
    if Commits(w, s) {
      if id in Touched(w, w.clients[s.c].pc) {
        MergingCommitGrows(w, s.c, id);
      } else {
        UntouchedStay(w, w.clients[s.c].pc, id);
      }
    } else {
      QuietFrame(w, s);
    }
  }

  lemma {:induction false} GrownOnward(a: Db, b: Db, c: Db, id: Id)
    requires GrownAt(a, b, id) && GrownAt(b, c, id)
    ensures GrownAt(a, c, id)
  {
    if id in a.blobs {
      ExtendsIsTransitive(a.blobs[id], b.blobs[id], c.blobs[id]);
    }
  }

  lemma {:induction false} MergedStep(w: World, s: Step, history: seq<Commit>, id: Id)
    requires Enabled(w, s) && Apply(w, s).history <= history && OnlyMerged(history, |w.history|, id)
    ensures OnlyMerged(history, |Apply(w, s).history|, id)
    ensures Commits(w, s) && id in Touched(w, w.clients[s.c].pc) ==> Merging(w.clients[s.c].pc.op)
  {
    StepHistory(w, s);
    assert Commits(w, s) ==> history[|w.history|] == Committed(w, s.c).history[|w.history|];
  }

  lemma {:induction false} OwnedStepGrows(w: World, s: Step, history: seq<Commit>, id: Id)
    requires StoreOk(w) && PcsOk(w) && Enabled(w, s) && AllCopiesOld(w, id)
    requires Apply(w, s).history <= history && Owned(history, id) && OnlyMerged(history, |w.history|, id)
    ensures GrownAt(w.db, Apply(w, s).db, id) && OnlyMerged(history, |Apply(w, s).history|, id)
  {
    OwnedStep(w, s, history, id);
    MergedStep(w, s, history, id);
    StepGrows(w, s, id);
  }

  lemma {:induction false} RunGrows(start: nat, w: World, steps: seq<Step>, w': World, id: Id)
    requires Inv(start, w) && Reaches(w, steps, w') && AllCopiesOld(w, id)
    requires Owned(w'.history, id) && OnlyMerged(w'.history, |w.history|, id)
    ensures GrownAt(w.db, w'.db, id)
    decreases |steps|
  {
    if steps != [] {
      var mid := Apply(w, steps[0]);
      RunHistory(mid, steps[1..], w');
      OwnedStepGrows(w, steps[0], w'.history, id);
      StepInv(start, w, steps[0]);
      StepCopies(w, steps[0], id);
      RunGrows(start, mid, steps[1..], w', id);
      GrownOnward(w.db, mid.db, w'.db, id);
    }
  }

  lemma {:induction false} InitCopies(w: World, id: Id)
    requires Init(w)
    ensures AllCopiesOld(w, id)
  {
  }

  /** Between any two points of any run with only merging writes to an owned
      program in between, whatever other calls did before or do elsewhere, no
      dictionary entry, code, name, parent or child of it disappears or changes,
      and if it changes at all its counter has risen. */
  lemma {:induction false} WritesOnlyAdd(w0: World, one: seq<Step>, w1: World, two: seq<Step>, w2: World, id: Id)
    requires Init(w0) && Reaches(w0, one, w1) && Reaches(w1, two, w2)
    requires Owned(w2.history, id) && OnlyMerged(w2.history, |w1.history|, id) && id in w1.db.blobs
    ensures id in w2.db.blobs && Extends(w1.db.blobs[id], w2.db.blobs[id])
    ensures w1.db.blobs[id] == w2.db.blobs[id] || w1.db.blobs[id].atomicCounter < w2.db.blobs[id].atomicCounter
  {
    InitInv(w0);
    InitCopies(w0, id);
    RunInv(w0.db.counter, w0, one, w1);
    RunCopies(w0.db.counter, w0, one, w1, id);
    RunGrows(w0.db.counter, w1, two, w2, id);
  }

  // ---------------------------------------------------------------- no lost update

  /** Every key the call brought is stored, with the value it brought, or with
      the one it found there. */
  ghost predicate HoldsKeys<V>(found: map<string, V>, brought: map<string, V>, stored: map<string, V>) {
    forall k :: k in brought ==> k in stored && stored[k] == if k in found then found[k] else brought[k]
  }

  ghost predicate Holds(found: Option<Program>, p: Program, stored: Program) {
    && (found.None? ==>
          && stored.code == p.code && HoldsKeys(map[], p.metadata, stored.metadata)
          && HoldsKeys(map[], p.metrics, stored.metrics) && HoldsKeys(map[], p.stageResults, stored.stageResults))
    && (found.Some? ==>
          && stored.code == found.value.code && HoldsKeys(found.value.metadata, p.metadata, stored.metadata)
          && HoldsKeys(found.value.metrics, p.metrics, stored.metrics)
          && HoldsKeys(found.value.stageResults, p.stageResults, stored.stageResults))
  }

  /** What a committed call brought is still there, keys, children and name, and
      with its values wherever it brought something new. */
  ghost predicate Kept(db: Db, p: Program, found: Option<Program>) {
    p.id in db.blobs && Covers(db.blobs[p.id], p) && Holds(found, p, db.blobs[p.id])
  }

  /** Every merging commit is still there, unless its program was not owned or
      has been written blindly since. */
  ghost predicate KeptAt(w: World, i: int)
    requires 0 <= i < |w.history|
  {
    var commit := w.history[i];
    Merging(commit.op) && Owned(w.history, commit.op.p.id) && OnlyMerged(w.history, i, commit.op.p.id) ==>
      Kept(w.db, commit.op.p, commit.found)
  }

  ghost predicate HistoryKept(w: World) { forall i :: 0 <= i < |w.history| ==> KeptAt(w, i) }

  lemma {:induction false} GrownHolds(found: Option<Program>, p: Program, a: Program, b: Program)
    requires Holds(found, p, a) && Extends(a, b)
    ensures Holds(found, p, b)
  {
  }

  lemma {:induction false} GrownKeeps(before: Db, after: Db, p: Program, found: Option<Program>)
    requires GrownAt(before, after, p.id) && Kept(before, p, found)
    ensures Kept(after, p, found)
  {
    var a, b := before.blobs[p.id], after.blobs[p.id];
    assert Extends(a, b);
    GrownHolds(found, p, a, b);
    forall c | c in p.lineage.children ensures c in b.lineage.children {
      assert c in a.lineage.children;
    }
  }

  lemma {:induction false} MergeHolds(current: Program, p: Program, stored: Program)
    requires MergedFrom(current, p, stored) && p.atomicCounter <= current.atomicCounter
    ensures Holds(Some(current), p, stored)
  {
  }

  lemma {:induction false} SerialHolds(db: Db, op: Op, base: nat)
    requires Keyed(db.blobs) && Merging(op) && !Raises(db.blobs, op)
    requires op.p.id in db.blobs ==> op.p.atomicCounter <= db.blobs[op.p.id].atomicCounter
    ensures Kept(StoreCalls.Serial(db, op, base), op.p, Found(db, op))
  {
    var p := op.p;
    if p.id in db.blobs {
      MergeLosesNothing(db.blobs[p.id], p);
      MergeHolds(db.blobs[p.id], p, MergePrograms(Some(db.blobs[p.id]), p).value);
    }
  }

  lemma {:induction false} CommitCovers(w: World, c: ClientId)
    requires StoreOk(w) && PcsOk(w) && Commits(w, Exec(c)) && Merging(w.clients[c].pc.op)
    requires CopiesOld(w, w.clients[c], w.clients[c].pc.op.p.id)
    ensures var op := w.clients[c].pc.op; Kept(Committed(w, c).db, op.p, Found(w.db, op))
  {
    CommitIsSerial(w, c);
    var op := w.clients[c].pc.op;
    assert op.p in Payload(op);
    SerialHolds(w.db, op, BaseOf(w, w.clients[c].pc.ticket));
  }

  lemma {:induction false} StepKeepsAt(start: nat, w: World, s: Step, i: nat)
    requires Inv(start, w) && Enabled(w, s) && HistoryKept(w) && i < |Apply(w, s).history|
    requires forall id :: AllCopiesOld(w, id)
    ensures KeptAt(Apply(w, s), i)
  {
    var w' := Apply(w, s);
    StepHistory(w, s);
    if i == |w.history| {
      var commit := w'.history[i];
      if Merging(commit.op) && Owned(w'.history, commit.op.p.id) {
        OwnedBefore(w.history, w'.history[|w.history|..], commit.op.p.id);
        assert w'.history == w.history + w'.history[|w.history|..];
        assert AllCopiesOld(w, commit.op.p.id);
        CommitCovers(w, s.c);
      }
    } else {
      var commit := w'.history[i];
      if Merging(commit.op) && Owned(w'.history, commit.op.p.id) && OnlyMerged(w'.history, i, commit.op.p.id) {
        var id := commit.op.p.id;
        OwnedBefore(w.history, w'.history[|w.history|..], id);
        assert w'.history == w.history + w'.history[|w.history|..];
        MergedBefore(w.history, w'.history, i, id);
        assert KeptAt(w, i) && AllCopiesOld(w, id);
        assert Commits(w, s) ==> w'.history[|w.history|].written == Touched(w, w.clients[s.c].pc);
        StepGrows(w, s, id);
        GrownKeeps(w.db, w'.db, commit.op.p, commit.found);
      }
    }
  }

  lemma {:induction false} MergedBefore(history: seq<Commit>, longer: seq<Commit>, from: nat, id: Id)
    requires history <= longer && OnlyMerged(longer, from, id)
    ensures OnlyMerged(history, from, id)
  {
    forall i | from <= i < |history| && id in history[i].written ensures Merging(history[i].op) {
      assert longer[i] == history[i];
    }
  }

  lemma {:induction false} RunKeeps(start: nat, w: World, steps: seq<Step>, w': World)
    requires Inv(start, w) && Reaches(w, steps, w') && HistoryKept(w) && forall id :: AllCopiesOld(w, id)
    ensures HistoryKept(w')
    decreases |steps|
  {
    if steps != [] {
      var mid := Apply(w, steps[0]);
      forall i | 0 <= i < |mid.history| ensures KeptAt(mid, i) {
        StepKeepsAt(start, w, steps[0], i);
      }
      forall id ensures AllCopiesOld(mid, id) {
        StepCopies(w, steps[0], id);
      }
      StepInv(start, w, steps[0]);
      RunKeeps(start, mid, steps[1..], w');
    }
  }

  /** No lost update: every key, child and name a committed merging call brought
      to an owned program is there at every later point of the run, until a blind
      call writes that program. A key that was not stored has the value the call
      brought, a key that was keeps the value that was there. */
  lemma {:induction false} NoLostUpdate(w0: World, steps: seq<Step>, w: World, i: nat)
    requires Init(w0) && Reaches(w0, steps, w) && i < |w.history| && Merging(w.history[i].op)
    requires Owned(w.history, w.history[i].op.p.id) && OnlyMerged(w.history, i, w.history[i].op.p.id)
    ensures Kept(w.db, w.history[i].op.p, w.history[i].found)
  {
    InitInv(w0);
    forall id ensures AllCopiesOld(w0, id) {
      InitCopies(w0, id);
    }
    RunKeeps(w0.db.counter, w0, steps, w);
    assert KeptAt(w, i);
  }

  // ---------------------------------------------------------------- the status index over runs

  ghost predicate AlwaysIndexed(w: World, steps: seq<Step>)
    decreases |steps|
  {
    IndexInv(w.db) && (steps != [] && Enabled(w, steps[0]) ==> AlwaysIndexed(Apply(w, steps[0]), steps[1..]))
  }

  /** Every commit finds, when it writes, what its caller claimed or its read
      found. */
  ghost predicate AlwaysSafe(w: World, steps: seq<Step>)
    decreases |steps|
  {
    steps != [] && Enabled(w, steps[0]) ==>
      && (Commits(w, steps[0]) ==> IndexSafe(w.db, w.clients[steps[0].c].pc.seen, w.clients[steps[0].c].pc.op))
      && AlwaysSafe(Apply(w, steps[0]), steps[1..])
  }

  lemma {:induction false} StepIsSafeIff(w: World, s: Step)
    requires PcsOk(w) && Enabled(w, s) && IndexInv(w.db)
    ensures IndexInv(Apply(w, s).db) <==>
            (Commits(w, s) ==> IndexSafe(w.db, w.clients[s.c].pc.seen, w.clients[s.c].pc.op))
  {
    if Commits(w, s) {
      var pc := w.clients[s.c].pc;
      assert PcOk(w, pc);
      SentIsSafeIff(w.db, pc.seen, pc.op, BaseOf(w, pc.ticket));
    } else {
      QuietFrame(w, s);
      IndexIgnoresCounter(w.db, Apply(w, s).db.counter);
      assert Apply(w, s).db == w.db.(counter := Apply(w, s).db.counter);
    }
  }

  lemma {:induction false} RunIsSafeIff(start: nat, w: World, steps: seq<Step>, w': World)
    requires Inv(start, w) && Reaches(w, steps, w') && IndexInv(w.db)
    ensures AlwaysIndexed(w, steps) <==> AlwaysSafe(w, steps)
    decreases |steps|
  {
    if steps != [] {
      var mid := Apply(w, steps[0]);
      StepIsSafeIff(w, steps[0]);
      StepInv(start, w, steps[0]);
      if IndexInv(mid.db) {
        RunIsSafeIff(start, mid, steps[1..], w');
      }
    }
  }

  /** The status index holds in every state of a run exactly when every commit
      finds the state it trusts: an update a stored program it does not move, an
      exclusive write the same state, the fast and batch calls the old state they
      were given (or the new one), add, remove and the batch by ids the state
      they read. Transitions never matter. */
  lemma {:induction false} IndexHoldsThroughoutIff(w0: World, steps: seq<Step>, w: World)
    requires Init(w0) && Reaches(w0, steps, w) && IndexInv(w0.db)
    ensures AlwaysIndexed(w0, steps) <==> AlwaysSafe(w0, steps)
  {
    InitInv(w0);
    RunIsSafeIff(w0.db.counter, w0, steps, w);
  }

  /** Under ownership the calls that read first are always safe. */
  lemma {:induction false} OwnedReadsAreSafe(w0: World, steps: seq<Step>, w: World, c: ClientId)
    requires Init(w0) && Reaches(w0, steps, w) && Commits(w, Exec(c))
    requires ReadsFirst(w.clients[c].pc.op) && !w.clients[c].pc.dirty
    ensures IndexSafe(w.db, w.clients[c].pc.seen, w.clients[c].pc.op)
  {
    InitInv(w0);
    RunInv(w0.db.counter, w0, steps, w);
    assert PcOk(w, w.clients[c].pc);
    CurrentReadsAreSafe(w.db, w.clients[c].pc.seen, w.clients[c].pc.op);
  }
}
