/** Replay of POST /orders by Idempotency-Key. The lookup, the order and the saving of the answer are
    three transactions, between which anything may happen; the saving may fail, and its error is
    dropped. */
module Idempotency {
  import opened Domain
  import opened Tables
  import opened Transactions
  import System

  // ---------- requests and steps ----------

  /** `hash` is the request hash, `render` the response body of a new order. */
  datatype Codec = Codec(hash: seq<CreateItem> -> string, render: nat -> string)

  datatype Saved = Saved(hash: string, status: int, body: string)

  datatype Request = Request(user: nat, key: string, items: seq<CreateItem>, now: nat)

  datatype Reply = Replayed(status: int, body: string) | Placed(o: nat) | Refused(error: Error)

  /** A request has arrived, has looked its key up and found nothing, has made its order, or is answered. */
  datatype Phase = Arrived | Unknown | Made | Answered(reply: Reply)

  /** `order` is the order the request has created. */
  datatype Client = Client(request: Request, phase: Phase, order: Option<nat>)

  datatype Shop = Shop(db: DB, saved: map<(nat, string), Saved>, clients: seq<Client>)

  /** `Abandon` is a failed read of the new order, or a crash: the answer is never saved. `Other` is any
      other transaction of the API. */
  datatype Step =
    | Arrive(r: Request)
    | Look(i: nat)
    | Place(i: nat)
    | Save(i: nat, works: bool)
    | Abandon(i: nat)
    | Other(a: System.Action)

  function Id(r: Request): (nat, string) {
    (r.user, r.key)
  }

  /** The checks and the lookup; None means the request goes on to create its order. */
  function Lookup(saved: map<(nat, string), Saved>, r: Request, c: Codec): Option<Reply> {
    if r.key == "" || r.items == [] then Some(Refused(Invalid))
    else if Id(r) in saved && saved[Id(r)].body != "" then
      var prev := saved[Id(r)];
      if prev.hash != "" && prev.hash != c.hash(r.items) then Some(Refused(Conflict))
      else Some(Replayed(prev.status, prev.body))
    else None
  }

  /** The saving works unless the database fails or the key does not fit its VARCHAR(128) column. */
  predicate Fits(r: Request, works: bool) {
    works && |r.key| <= MAX_KEY_LENGTH
  }

  /** What is saved first stays. */
  function Store(saved: map<(nat, string), Saved>, r: Request, o: nat, c: Codec): map<(nat, string), Saved> {
    if Id(r) in saved then saved else saved[Id(r) := Saved(c.hash(r.items), 201, c.render(o))]
  }

  function SetClient(s: Shop, i: nat, client: Client): Shop
    requires i < |s.clients|
  {
    s.(clients := s.clients[i := client])
  }

  function Apply(s: Shop, st: Step, c: Codec): Shop {
    match st
    case Arrive(r) => s.(clients := s.clients + [Client(r, Arrived, None)])
    case Look(i) =>
      if i < |s.clients| && s.clients[i].phase == Arrived then
        var found := Lookup(s.saved, s.clients[i].request, c);
        SetClient(s, i, s.clients[i].(phase := if found.Some? then Answered(found.value) else Unknown))
      else s
    case Place(i) =>
      if i < |s.clients| && s.clients[i].phase == Unknown then
        var r := s.clients[i].request;
        var t := CreateOrder(s.db, r.user, r.items, r.now);
        if t.result.Ok? then SetClient(s.(db := t.db), i, Client(r, Made, Some(t.result.value)))
        else SetClient(s.(db := t.db), i, s.clients[i].(phase := Answered(Refused(t.result.error))))
      else s
    case Save(i, works) =>
      if i < |s.clients| && s.clients[i].phase == Made && s.clients[i].order.Some? then
        var client := s.clients[i];
        var o := client.order.value;
        var saved := if Fits(client.request, works) then Store(s.saved, client.request, o, c) else s.saved;
        SetClient(s.(saved := saved), i, client.(phase := Answered(Placed(o))))
      else s
    case Abandon(i) =>
      if i < |s.clients| && s.clients[i].phase == Made
      then SetClient(s, i, s.clients[i].(phase := Answered(Refused(Unavailable)))) else s
    case Other(a) => s.(db := System.Act(s.db, a))
  }

  /** The shop after the first `n` steps. */
  function After(s: Shop, steps: seq<Step>, n: nat, c: Codec): Shop
    requires n <= |steps|
  {
    if n == 0 then s else Apply(After(s, steps, n - 1, c), steps[n - 1], c)
  }

  /** Nothing saved and nobody served yet. */
  function Open(db: DB): Shop {
    Shop(db, map[], [])
  }

  // ---------- what is saved ----------

  /** The step saves, or finds saved, the answer of a request under `id`. */
  predicate SavesUnder(s: Shop, st: Step, id: (nat, string)) {
    && st.Save? && st.i < |s.clients|
    && s.clients[st.i].phase == Made && s.clients[st.i].order.Some?
    && (s.clients[st.i].request.user, s.clients[st.i].request.key) == id
    && st.works && |s.clients[st.i].request.key| <= 128
  }

  /** Step `k` of the run is such a one. */
  predicate SavesAt(db: DB, steps: seq<Step>, k: nat, c: Codec, id: (nat, string))
    requires k < |steps|
  {
    SavesUnder(After(Open(db), steps, k, c), steps[k], id)
  }

  /** An answer is saved under a key exactly when some request's saving under it has worked. */
  lemma {:induction false} SavedIff(db: DB, steps: seq<Step>, n: nat, c: Codec, id: (nat, string))
    requires n <= |steps|
    ensures id in After(Open(db), steps, n, c).saved <==>
            exists k: nat :: k < n && SavesAt(db, steps, k, c, id)
  {
    if n > 0 {
      SavedIff(db, steps, n - 1, c, id);
      SavedStep(After(Open(db), steps, n - 1, c), steps[n - 1], c, id);
      assert id in After(Open(db), steps, n, c).saved <==>
             id in After(Open(db), steps, n - 1, c).saved || SavesAt(db, steps, n - 1, c, id);
    }
  }

  lemma SavedStep(s: Shop, st: Step, c: Codec, id: (nat, string))
    ensures id in Apply(s, st, c).saved <==> id in s.saved || SavesUnder(s, st, id)
  {
  }

  /** Every saved answer is that of an order some request with that key has created. */
  ghost predicate Genuine(s: Shop, id: (nat, string), c: Codec)
    requires id in s.saved
  {
    exists j :: 0 <= j < |s.clients| && Id(s.clients[j].request) == id && s.clients[j].order.Some?
           && s.saved[id] == Saved(c.hash(s.clients[j].request.items), 201, c.render(s.clients[j].order.value))
  }

  ghost predicate AllGenuine(s: Shop, c: Codec) {
    forall id | id in s.saved :: Genuine(s, id, c)
  }

  /** A step changes no request, takes no order away from it, and changes nothing that is saved. */
  lemma StepKeeps(s: Shop, st: Step, c: Codec, j: nat)
    requires j < |s.clients|
    ensures var s' := Apply(s, st, c);
            && j < |s'.clients| && s'.clients[j].request == s.clients[j].request
            && (s.clients[j].order.Some? && s.clients[j].phase != Unknown ==> s'.clients[j].order == s.clients[j].order)
            && (forall id | id in s.saved :: id in s'.saved && s'.saved[id] == s.saved[id])
  {
  }

  /** Only a request that has found nothing may be without an order yet get one. */
  ghost predicate PhasesOk(s: Shop) {
    forall i | 0 <= i < |s.clients| :: s.clients[i].order.Some? ==> s.clients[i].phase !in {Arrived, Unknown}
  }

  lemma {:induction false} RunIsGenuine(db: DB, steps: seq<Step>, n: nat, c: Codec)
    requires n <= |steps|
    ensures PhasesOk(After(Open(db), steps, n, c)) && AllGenuine(After(Open(db), steps, n, c), c)
  {
    if n > 0 {
      RunIsGenuine(db, steps, n - 1, c);
      var s, st := After(Open(db), steps, n - 1, c), steps[n - 1];
      var s' := Apply(s, st, c);
      forall id | id in s'.saved ensures Genuine(s', id, c) {
        if id in s.saved {
          var j :| 0 <= j < |s.clients| && Id(s.clients[j].request) == id && s.clients[j].order.Some?
                   && s.saved[id] == Saved(c.hash(s.clients[j].request.items), 201, c.render(s.clients[j].order.value));
          StepKeeps(s, st, c, j);
          assert Id(s'.clients[j].request) == id;
        } else {
          SavedStep(s, st, c, id);
          assert Id(s'.clients[st.i].request) == id;
        }
      }
    }
  }

  // ---------- when a key gets another order ----------

  /** Between its lookup and its placing a request waits. */
  lemma {:induction false} StaysUnknown(s: Shop, steps: seq<Step>, a: nat, b: nat, c: Codec, i: nat)
    requires a < b <= |steps|
    requires i < |After(s, steps, a + 1, c).clients|
    requires forall k | a < k < b :: steps[k] != Place(i)
    ensures i < |After(s, steps, b, c).clients|
    ensures After(s, steps, b, c).clients[i].request == After(s, steps, a + 1, c).clients[i].request
    ensures After(s, steps, a + 1, c).clients[i].phase == Unknown ==> After(s, steps, b, c).clients[i].phase == Unknown
    ensures After(s, steps, a + 1, c).clients[i].phase.Answered? ==>
              After(s, steps, b, c).clients[i] == After(s, steps, a + 1, c).clients[i]
  {
    if b > a + 1 {
      StaysUnknown(s, steps, a, b - 1, c, i);
      assert steps[b - 1] != Place(i);
      StepKeeps(After(s, steps, b - 1, c), steps[b - 1], c, i);
    }
  }

  /** In any interleaving: a request whose lookup is step `a` and whose placing is step `b`, where the
      order itself can be created, creates one if and only if no saving under its key has worked
      before its lookup. So a used key gets another order exactly when the lookup came too early, or
      when every saving so far has failed, been abandoned or never been tried. */
  lemma AnotherOrderIff(db: DB, steps: seq<Step>, a: nat, b: nat, c: Codec, i: nat)
    requires a < b < |steps| && steps[a] == Look(i) && steps[b] == Place(i)
    requires forall k | a < k < b :: steps[k] != Place(i)
    requires var s := After(Open(db), steps, a, c);
             i < |s.clients| && s.clients[i].phase == Arrived && s.clients[i].request.key != ""
    requires var r := After(Open(db), steps, a, c).clients[i].request;
             CreateOrder(After(Open(db), steps, b, c).db, r.user, r.items, r.now).result.Ok?
    requires forall o :: c.render(o) != ""
    ensures i < |After(Open(db), steps, b + 1, c).clients|
    ensures var r := After(Open(db), steps, a, c).clients[i].request;
            After(Open(db), steps, b + 1, c).clients[i].order.Some? <==>
            !exists k: nat :: k < a && SavesAt(db, steps, k, c, (r.user, r.key))
  {
    var s := After(Open(db), steps, a, c);
    var r := s.clients[i].request;
    SavedIff(db, steps, a, c, Id(r));
    RunIsGenuine(db, steps, a, c);
    assert After(Open(db), steps, a + 1, c) == Apply(s, steps[a], c);
    assert s.clients[i].order.None?;
    StaysUnknown(Open(db), steps, a, b, c, i);
    assert After(Open(db), steps, b + 1, c) == Apply(After(Open(db), steps, b, c), steps[b], c);
    if Id(r) in s.saved {
      assert Genuine(s, Id(r), c);
    }
  }

  /** What a lookup that finds an answer replies: the answer of an order created under this key, if the
      body is the same, and a conflict otherwise. */
  lemma FoundIsReplayed(db: DB, steps: seq<Step>, a: nat, c: Codec, i: nat)
    requires a < |steps| && steps[a] == Look(i)
    requires var s := After(Open(db), steps, a, c);
             && i < |s.clients| && s.clients[i].phase == Arrived
             && s.clients[i].request.key != "" && s.clients[i].request.items != []
             && Id(s.clients[i].request) in s.saved
    requires (forall o :: c.render(o) != "") && (forall items :: c.hash(items) != "")
    ensures var s, s' := After(Open(db), steps, a, c), After(Open(db), steps, a + 1, c);
            && i < |s'.clients|
            && exists j :: 0 <= j < |s.clients| && Id(s.clients[j].request) == Id(s.clients[i].request)
                 && s.clients[j].order.Some?
                 && s'.clients[i].phase ==
                    Answered(if c.hash(s.clients[j].request.items) == c.hash(s.clients[i].request.items)
                             then Replayed(201, c.render(s.clients[j].order.value)) else Refused(Conflict))
  {
    var s := After(Open(db), steps, a, c);
    RunIsGenuine(db, steps, a, c);
    assert Genuine(s, Id(s.clients[i].request), c);
    var j :| 0 <= j < |s.clients| && Id(s.clients[j].request) == Id(s.clients[i].request) && s.clients[j].order.Some?
             && s.saved[Id(s.clients[i].request)] ==
                Saved(c.hash(s.clients[j].request.items), 201, c.render(s.clients[j].order.value));
  }

  // ---------- at most one order ----------

  /** Request `i` has created its order or is about to. */
  predicate Ordering(client: Client) {
    client.order.Some? || client.phase == Unknown
  }

  /** A request under `id` looks up only when every earlier one that got that far has been answered
      and its answer saved. */
  ghost predicate OneAtATime(db: DB, steps: seq<Step>, n: nat, c: Codec, id: (nat, string))
    requires n <= |steps|
  {
    forall k: nat, j: nat | k < n && steps[k].Look? ::
      var s := After(Open(db), steps, k, c);
      j < |s.clients| && Id(s.clients[j].request) == id && Ordering(s.clients[j]) ==> id in s.saved
  }

  /** Requests that look up one at a time, the last one's answer saved, create at most one order under
      their key. */
  lemma {:induction false} OneOrderPerKey(db: DB, steps: seq<Step>, n: nat, c: Codec, id: (nat, string), i: nat, j: nat)
    requires n <= |steps| && OneAtATime(db, steps, n, c, id)
    requires forall o :: c.render(o) != ""
    requires var s := After(Open(db), steps, n, c);
             && i < j < |s.clients| && Id(s.clients[i].request) == id && Id(s.clients[j].request) == id
    ensures var s := After(Open(db), steps, n, c);
            !(Ordering(s.clients[i]) && Ordering(s.clients[j]))
  {
    if n > 0 {
      var s, st := After(Open(db), steps, n - 1, c), steps[n - 1];
      RunIsGenuine(db, steps, n - 1, c);
      if j < |s.clients| {
        StepKeeps(s, st, c, i);
        StepKeeps(s, st, c, j);
        OneOrderPerKey(db, steps, n - 1, c, id, i, j);
        if id in s.saved {
          assert Genuine(s, id, c);
        }
        LookIsCareful(s, st, c, id, i, j);
        LookIsCareful(s, st, c, id, j, i);
      } else {
        assert s.clients + [Client(st.r, Arrived, None)] == Apply(s, st, c).clients;
      }
    }
  }

  lemma LookIsCareful(s: Shop, st: Step, c: Codec, id: (nat, string), i: nat, j: nat)
    requires i < |s.clients| && j < |s.clients| && i != j
    requires Id(s.clients[i].request) == id && Id(s.clients[j].request) == id
    requires id in s.saved ==> s.saved[id].body != ""
    requires st.Look? && Ordering(s.clients[j]) ==> id in s.saved
    ensures var s' := Apply(s, st, c);
            && |s'.clients| >= |s.clients|
            && (Ordering(s'.clients[i]) && !Ordering(s.clients[i]) ==>
                  !Ordering(s.clients[j]) && s'.clients[j] == s.clients[j])
  {
  }

  // ---------- runs that create two ----------

  /** Two requests that both look up before either saves both create an order. */
  lemma OverlappingRequestsCreateTwice(db: DB, r: Request, c: Codec)
    requires r.key != "" && r.items != []
    requires CreateOrder(db, r.user, r.items, r.now).result.Ok?
    requires CreateOrder(CreateOrder(db, r.user, r.items, r.now).db, r.user, r.items, r.now).result.Ok?
    ensures var steps := [Arrive(r), Arrive(r), Look(0), Look(1), Place(0), Place(1)];
            var s := After(Open(db), steps, 6, c);
            && |s.clients| == 2 && s.clients[0].order.Some? && s.clients[1].order.Some?
            && s.clients[0].order != s.clients[1].order
  {
    var steps := [Arrive(r), Arrive(r), Look(0), Look(1), Place(0), Place(1)];
    var s4 := Shop(db, map[], [Client(r, Unknown, None), Client(r, Unknown, None)]);
    assert After(Open(db), steps, 1, c).clients == [Client(r, Arrived, None)];
    assert After(Open(db), steps, 2, c).clients == [Client(r, Arrived, None), Client(r, Arrived, None)];
    assert After(Open(db), steps, 4, c) == s4;
  }

  /** A request served from its arrival to its answer at steps `n` to `n + 3`, its saving failing. */
  lemma ServedWithoutSaving(db: DB, steps: seq<Step>, n: nat, r: Request, c: Codec, works: bool, i: nat)
    requires n + 4 <= |steps|
    requires steps[n] == Arrive(r) && steps[n + 1] == Look(i) && steps[n + 2] == Place(i)
             && steps[n + 3] == Save(i, works)
    requires r.key != "" && r.items != [] && !Fits(r, works)
    requires var s := After(Open(db), steps, n, c);
             |s.clients| == i && Id(r) !in s.saved && CreateOrder(s.db, r.user, r.items, r.now).result.Ok?
    ensures var s := After(Open(db), steps, n, c);
            var t := CreateOrder(s.db, r.user, r.items, r.now);
            After(Open(db), steps, n + 4, c) ==
            Shop(t.db, s.saved, s.clients + [Client(r, Answered(Placed(t.result.value)), Some(t.result.value))])
  {
    var s := After(Open(db), steps, n, c);
    var t := CreateOrder(s.db, r.user, r.items, r.now);
    assert After(Open(db), steps, n + 1, c) == s.(clients := s.clients + [Client(r, Arrived, None)]);
    assert After(Open(db), steps, n + 2, c) == s.(clients := s.clients + [Client(r, Unknown, None)]);
    assert After(Open(db), steps, n + 3, c) ==
           Shop(t.db, s.saved, s.clients + [Client(r, Made, Some(t.result.value))]);
  }

  /** Requests one after another create two orders when the saving fails: the database fails, or the key
      is longer than its column and every saving under it fails. */
  lemma FailedSaveCreatesTwice(db: DB, r: Request, c: Codec, works: bool)
    requires r.key != "" && r.items != [] && !Fits(r, works)
    requires CreateOrder(db, r.user, r.items, r.now).result.Ok?
    requires CreateOrder(CreateOrder(db, r.user, r.items, r.now).db, r.user, r.items, r.now).result.Ok?
    ensures var steps := [Arrive(r), Look(0), Place(0), Save(0, works), Arrive(r), Look(1), Place(1), Save(1, works)];
            var s := After(Open(db), steps, 8, c);
            && |s.clients| == 2 && s.clients[0].phase.Answered? && s.clients[1].phase.Answered?
            && s.clients[0].phase.reply.Placed? && s.clients[1].phase.reply.Placed?
            && s.clients[0].order != s.clients[1].order
  {
    var steps := [Arrive(r), Look(0), Place(0), Save(0, works), Arrive(r), Look(1), Place(1), Save(1, works)];
    ServedWithoutSaving(db, steps, 0, r, c, works, 0);
    ServedWithoutSaving(db, steps, 4, r, c, works, 1);
  }

  // ---------- refused requests ----------

  /** A request without a key or without items is refused as invalid and nothing else happens; one whose
      order cannot be created gets that error, and its answer is not saved. */
  lemma RefusedRequests(s: Shop, i: nat, c: Codec)
    requires i < |s.clients|
    ensures s.clients[i].phase == Arrived && (s.clients[i].request.key == "" || s.clients[i].request.items == []) ==>
              Apply(s, Look(i), c) ==
              s.(clients := s.clients[i := s.clients[i].(phase := Answered(Refused(Invalid)))])
    ensures s.clients[i].phase == Unknown ==>
              var r := s.clients[i].request;
              var t := CreateOrder(s.db, r.user, r.items, r.now);
              t.result.Err? ==>
                Apply(s, Place(i), c) ==
                Shop(t.db, s.saved, s.clients[i := s.clients[i].(phase := Answered(Refused(t.result.error)))])
  {
  }
}
