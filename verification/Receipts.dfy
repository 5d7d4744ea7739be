// The idempotency protocol that wraps the commands of orders, payments,
// fulfillment and messaging: claim a receipt, run the command, complete the
// receipt, all in one transaction.  The request digest is modelled by the
// payload it digests.
module Receipts {
  import opened Common

  datatype Command<P, I> = Command(org: nat, operation: string, key: string, payload: P, input: I)

  datatype Id = Id(org: nat, operation: string, key: string)

  // What a completed receipt remembers is a reference, not an answer.
  datatype Receipt<P, K> = Claimed(payload: P) | Completed(payload: P, stored: K)

  datatype Failure<E> = IdempotencyConflict | Raised(error: E)

  // A service function: what it does before the claim (gate) and after it
  // (body), and how it answers a replay: by looking again for what its receipt
  // refers to, which may raise a conflict.  free is everything that changes the
  // same rows without a receipt.
  datatype Service<!S, !P, !I, !F, !K, A, E> = Service(
    gate: (S, Command<P, I>) -> Option<E>,
    body: (S, Command<P, I>) -> Result<(S, K, A), E>,
    answer: (S, P, K) -> Option<A>,
    free: (S, F) -> S)

  datatype Store<S, P, K> = Store(state: S, receipts: map<Id, Receipt<P, K>>)

  datatype Event<P, I, F> = Protected(command: Command<P, I>) | Free(action: F)

  const MAX_KEY := 64

  // --- keys ---

  // The characters that Python's str.strip removes.
  predicate Blank(c: char) {
    || '\t' <= c <= '\r'
    || 28 as char <= c <= ' '
    || c in {133 as char, 160 as char, 5760 as char, 8232 as char, 8233 as char, 8239 as char, 8287 as char,
             12288 as char}
    || 8192 as char <= c <= 8202 as char
  }

  // By code point.
  lemma BlanksAre(c: char)
    ensures Blank(c) <==>
            c as int in {9, 10, 11, 12, 13, 28, 29, 30, 31, 32, 133, 160, 5760, 8192, 8193, 8194, 8195, 8196, 8197,
                         8198, 8199, 8200, 8201, 8202, 8232, 8233, 8239, 8287, 12288}
  {
  }

  function StripLeft(s: string): (r: string)
    ensures r == [] || !Blank(r[0])
    ensures |r| <= |s|
  {
    if s != [] && Blank(s[0]) then StripLeft(s[1..]) else s
  }

  function Strip(s: string): (r: string)
    ensures r == [] || (!Blank(r[0]) && !Blank(r[|r| - 1]))
    ensures |r| <= |s|
    decreases |s|
  {
    var left := StripLeft(s);
    if left != [] && Blank(left[|left| - 1]) then Strip(left[..|left| - 1]) else left
  }

  // Stripping again changes nothing, so a stored key finds itself.
  lemma {:induction false} StripTwice(s: string)
    ensures Strip(Strip(s)) == Strip(s)
  {
    var r := Strip(s);
    assert StripLeft(r) == r;
  }

  predicate AllBlank(s: string) {
    forall i :: 0 <= i < |s| ==> Blank(s[i])
  }

  // t is s without blanks at either end, and nothing else is missing.
  ghost predicate Trims(s: string, left: string, t: string, right: string) {
    && s == left + t + right
    && AllBlank(left) && AllBlank(right)
    && (t != "" ==> !Blank(t[0]) && !Blank(t[|t| - 1]))
  }

  lemma {:induction false} StripLeftTrims(s: string) returns (left: string)
    ensures s == left + StripLeft(s) && AllBlank(left)
  {
    left := "";
    if s != [] && Blank(s[0]) {
      left := StripLeftTrims(s[1..]);
      left := [s[0]] + left;
    }
  }

  lemma TrimsMore(front: string, left: string, t: string, right: string, before: string, after: string)
    requires Trims(front, left, t, right) && AllBlank(before) && AllBlank(after)
    ensures Trims(before + (front + after), before + left, t, right + after)
  {
    assert before + (front + after) == (before + left) + t + (right + after);
  }

  lemma {:induction false} StripTrims(s: string) returns (left: string, right: string)
    ensures Trims(s, left, Strip(s), right)
    decreases |s|
  {
    var before := StripLeftTrims(s);
    var rest := StripLeft(s);
    if rest != [] && Blank(rest[|rest| - 1]) {
      var front, after := rest[..|rest| - 1], [rest[|rest| - 1]];
      left, right := StripTrims(front);
      TrimsMore(front, left, Strip(front), right, before, after);
      assert front + after == rest;
      left, right := before + left, right + after;
    } else {
      left, right := before, "";
      assert before + rest + "" == s;
    }
  }

  lemma {:induction false} StripLeftSkips(left: string, rest: string)
    requires AllBlank(left) && (rest == "" || !Blank(rest[0]))
    ensures StripLeft(left + rest) == rest
  {
    if left == [] {
      assert left + rest == rest;
    } else {
      StripLeftSkips(left[1..], rest);
      assert (left + rest)[1..] == left[1..] + rest;
    }
  }

  lemma StripOnce(left: string, rest: string)
    requires AllBlank(left) && rest != "" && !Blank(rest[0])
    ensures Strip(left + rest) == if Blank(rest[|rest| - 1]) then Strip(rest[..|rest| - 1]) else rest
  {
    StripLeftSkips(left, rest);
  }

  lemma {:induction false} StripSkips(left: string, t: string, right: string)
    requires AllBlank(left) && AllBlank(right) && t != "" && !Blank(t[0]) && !Blank(t[|t| - 1])
    ensures Strip(left + (t + right)) == t
    decreases |right|
  {
    var rest := t + right;
    StripOnce(left, rest);
    if right == [] {
      assert rest == t;
    } else {
      var front := right[..|right| - 1];
      assert rest[..|rest| - 1] == t + front == "" + (t + front);
      assert rest[|rest| - 1] == right[|right| - 1];
      StripSkips("", t, front);
    }
  }

  // The stripped key is the key without the blanks around it, and no other
  // string is.
  lemma StripExactly(s: string, t: string)
    ensures Strip(s) == t <==> exists left, right :: Trims(s, left, t, right)
  {
    if Strip(s) == t {
      var left, right := StripTrims(s);
    }
    if left, right :| Trims(s, left, t, right) {
      if t == "" {
        StripLeftSkips(s, "");
        assert s + "" == s;
      } else {
        StripSkips(left, t, right);
        assert left + (t + right) == s;
      }
    }
  }

  function IdOf<P, I>(command: Command<P, I>): Id {
    Id(command.org, command.operation, Strip(command.key))
  }

  predicate GoodKey(id: Id) {
    id.key != "" && |id.key| <= MAX_KEY
  }

  // --- one command ---

  // Nothing for a new key, what the receipt refers to for a replay.
  function Claim<P(==), K>(receipts: map<Id, Receipt<P, K>>, id: Id, payload: P): Result<Option<K>, ()> {
    if !GoodKey(id) then Err(())
    else if id !in receipts then Ok(None)
    else if receipts[id].payload != payload || receipts[id].Claimed? then Err(())
    else Ok(Some(receipts[id].stored))
  }

  function Execute<S, P(==), I, F, K, A, E>(
    service: Service<S, P, I, F, K, A, E>, store: Store<S, P, K>, command: Command<P, I>): Result<(Store<S, P, K>, A),
      Failure<E>>
  {
    var refused := service.gate(store.state, command);
    if refused.Some? then Err(Raised(refused.value))
    else
      match Claim(store.receipts, IdOf(command), command.payload)
      case Err(_) => Err(IdempotencyConflict)
      case Ok(Some(stored)) => Replay(service, store, command.payload, stored)
      case Ok(None) =>
        match service.body(store.state, command)
        case Err(error) => Err(Raised(error))
        case Ok((state, stored, answer)) =>
          Ok((Store(state, store.receipts[IdOf(command) := Completed(command.payload, stored)]), answer))
  }

  function Replay<S, P, I, F, K, A, E>(
    service: Service<S, P, I, F, K, A, E>, store: Store<S, P, K>, payload: P, stored: K): Result<(Store<S, P, K>, A),
      Failure<E>>
  {
    match service.answer(store.state, payload, stored)
    case None => Err(IdempotencyConflict)
    case Some(answer) => Ok((store, answer))
  }

  // A command whose own checks pass runs exactly when its key, stripped, has
  // between one and sixty-four characters and no receipt yet; under a receipt
  // it is answered again for the same payload and conflicts for any other.
  lemma ExecutesExactly<S, P, I, F, K, A, E>(
    service: Service<S, P, I, F, K, A, E>, store: Store<S, P, K>, command: Command<P, I>)
    requires AllCompleted(store) && service.gate(store.state, command).None?
    ensures var key := Strip(command.key);
            var id := Id(command.org, command.operation, key);
            Execute(service, store, command) ==
            if id in store.receipts then
              if store.receipts[id].payload == command.payload
              then Replay(service, store, command.payload, store.receipts[id].stored)
              else Err(IdempotencyConflict)
            else if |key| < 1 || 64 < |key| then Err(IdempotencyConflict)
            else
              match service.body(store.state, command)
              case Err(error) => Err(Raised(error))
              case Ok((state, stored, answer)) =>
                Ok((Store(state, store.receipts[id := Completed(command.payload, stored)]), answer))
  {
  }

  // A command that raises leaves nothing behind, its receipt included.
  function Next<S, P(==), I, F, K, A, E>(
    service: Service<S, P, I, F, K, A, E>, store: Store<S, P, K>, event: Event<P, I, F>)
    : Store<S, P, K>
  {
    match event
    case Free(action) => store.(state := service.free(store.state, action))
    case Protected(command) =>
      var r := Execute(service, store, command);
      if r.Ok? then r.value.0 else store
  }

  function Run<S, P(==), I, F, K, A, E>(
    service: Service<S, P, I, F, K, A, E>, store: Store<S, P, K>, trace: seq<Event<P, I, F>>)
    : Store<S, P, K>
    decreases |trace|
  {
    if trace == [] then store
    else Next(service, Run(service, store, trace[..|trace| - 1]), trace[|trace| - 1])
  }

  // --- what every run keeps ---

  ghost predicate AllCompleted<S, P, K>(store: Store<S, P, K>) {
    forall id :: id in store.receipts ==> GoodKey(id) && store.receipts[id].Completed?
  }

  lemma {:induction false} RunCompletes<S, P, I, F, K, A, E>(
    service: Service<S, P, I, F, K, A, E>, store: Store<S, P, K>, trace: seq<Event<P, I, F>>)
    requires AllCompleted(store)
    ensures AllCompleted(Run(service, store, trace))
    decreases |trace|
  {
    if trace != [] {
      RunCompletes(service, store, trace[..|trace| - 1]);
    }
  }

  // Receipts are written once and never change.
  lemma {:induction false} ReceiptsAreKept<S, P, I, F, K, A, E>(
    service: Service<S, P, I, F, K, A, E>, store: Store<S, P, K>, trace: seq<Event<P, I, F>>, id: Id)
    requires AllCompleted(store) && id in store.receipts
    ensures var later := Run(service, store, trace).receipts;
            id in later && later[id] == store.receipts[id]
    decreases |trace|
  {
    if trace != [] {
      ReceiptsAreKept(service, store, trace[..|trace| - 1], id);
      RunCompletes(service, store, trace[..|trace| - 1]);
    }
  }

  // --- replays ---

  ghost predicate Replays<S, P, I, K>(store: Store<S, P, K>, command: Command<P, I>) {
    IdOf(command) in store.receipts && store.receipts[IdOf(command)].payload == command.payload
  }

  // What the receipt of a command that succeeded refers to.
  function StoredBy<S, P(==), I, F, K, A, E>(
    service: Service<S, P, I, F, K, A, E>, store: Store<S, P, K>, command: Command<P, I>)
    : Option<K>
  {
    match Claim(store.receipts, IdOf(command), command.payload)
    case Err(_) => None
    case Ok(Some(stored)) => Some(stored)
    case Ok(None) =>
      match service.body(store.state, command)
      case Err(_) => None
      case Ok((_, stored, _)) => Some(stored)
  }

  lemma SuccessIsStored<S, P, I, F, K, A, E>(
    service: Service<S, P, I, F, K, A, E>, store: Store<S, P, K>, command: Command<P, I>)
    requires AllCompleted(store) && Execute(service, store, command).Ok?
    ensures var after := Execute(service, store, command).value.0;
            && AllCompleted(after)
            && StoredBy(service, store, command).Some?
            && IdOf(command) in after.receipts
            && after.receipts[IdOf(command)] == Completed(command.payload, StoredBy(service, store, command).value)
  {
  }

  // A command succeeds by replaying its receipt or by running its body.
  lemma SuccessWas<S, P, I, F, K, A, E>(
    service: Service<S, P, I, F, K, A, E>, store: Store<S, P, K>, command: Command<P, I>)
    requires AllCompleted(store) && Execute(service, store, command).Ok?
    ensures var after := Execute(service, store, command).value.0;
            var stored := StoredBy(service, store, command);
            && stored.Some?
            && (|| (after == store && service.answer(store.state, command.payload, stored.value).Some?)
                || (&& service.body(store.state, command).Ok?
                    && after.state == service.body(store.state, command).value.0
                    && stored.value == service.body(store.state, command).value.1))
  {
  }

  // Once a command succeeded, sending it again at any later time has no effect,
  // whatever happened in between; it is answered by looking for what the
  // receipt refers to among the rows of that time.
  lemma RetryLooksAgain<S, P, I, F, K, A, E>(
    service: Service<S, P, I, F, K, A, E>, store: Store<S, P, K>, command: Command<P, I>,
    between: seq<Event<P, I, F>>, again: Command<P, I>)
    requires AllCompleted(store) && Execute(service, store, command).Ok?
    requires IdOf(again) == IdOf(command) && again.payload == command.payload
    ensures var later := Run(service, Execute(service, store, command).value.0, between);
            var refused := service.gate(later.state, again);
            && StoredBy(service, store, command).Some?
            && Next(service, later, Protected(again)) == later
            && Execute(service, later, again) ==
               (if refused.Some? then Err(Raised(refused.value))
                else Replay(service, later, command.payload, StoredBy(service, store, command).value))
  {
    var first := Execute(service, store, command).value.0;
    SuccessIsStored(service, store, command);
    RunCompletes(service, first, between);
    ReceiptsAreKept(service, first, between, IdOf(command));
  }

  // The same key with another payload is refused for ever, without effect.
  lemma OtherPayloadIsRefused<S, P, I, F, K, A, E>(
    service: Service<S, P, I, F, K, A, E>, store: Store<S, P, K>, command: Command<P, I>,
    between: seq<Event<P, I, F>>, again: Command<P, I>)
    requires AllCompleted(store) && Execute(service, store, command).Ok?
    requires IdOf(again) == IdOf(command) && again.payload != command.payload
    ensures var later := Run(service, Execute(service, store, command).value.0, between);
            Execute(service, later, again).Err? && Next(service, later, Protected(again)) == later
  {
    var first := Execute(service, store, command).value.0;
    SuccessIsStored(service, store, command);
    RunCompletes(service, first, between);
    ReceiptsAreKept(service, first, between, IdOf(command));
  }

  // --- erasure ---

  ghost predicate Erasable<S, P, I, F, K>(store: Store<S, P, K>, event: Event<P, I, F>) {
    event.Protected? && Replays(store, event.command)
  }

  // The trace without the commands that replay a completed one when their turn
  // comes; unprotected actions all stay.
  ghost function Erased<S, P, I, F, K, A, E>(
    service: Service<S, P, I, F, K, A, E>, store: Store<S, P, K>, trace: seq<Event<P, I, F>>): seq<Event<P, I, F>>
    decreases |trace|
  {
    if trace == [] then []
    else
      var before := trace[..|trace| - 1];
      var last := trace[|trace| - 1];
      Erased(service, store, before) + if Erasable(Run(service, store, before), last) then [] else [last]
  }

  lemma RunSnoc<S, P, I, F, K, A, E>(
    service: Service<S, P, I, F, K, A, E>, store: Store<S, P, K>, trace: seq<Event<P, I, F>>, event: Event<P, I, F>)
    ensures Run(service, store, trace + [event]) == Next(service, Run(service, store, trace), event)
  {
    assert (trace + [event])[..|trace|] == trace;
  }

  // Deleting every replay leaves the same final state and receipts.
  lemma {:induction false} ReplaysCanBeErased<S, P, I, F, K, A, E>(
    service: Service<S, P, I, F, K, A, E>, store: Store<S, P, K>, trace: seq<Event<P, I, F>>)
    requires AllCompleted(store)
    ensures Run(service, store, Erased(service, store, trace)) == Run(service, store, trace)
    decreases |trace|
  {
    if trace != [] {
      var before := trace[..|trace| - 1];
      var last := trace[|trace| - 1];
      ReplaysCanBeErased(service, store, before);
      RunCompletes(service, store, before);
      if !Erasable(Run(service, store, before), last) {
        RunSnoc(service, store, Erased(service, store, before), last);
      } else {
        assert Erased(service, store, before) + [] == Erased(service, store, before);
      }
    }
  }

  // No two commands of a trace take effect under the same key.
  lemma {:induction false} EachKeySucceedsOnce<S, P, I, F, K, A, E>(
    service: Service<S, P, I, F, K, A, E>, store: Store<S, P, K>, trace: seq<Event<P, I, F>>, i: nat, j: nat)
    requires AllCompleted(store) && i < j < |trace| && trace[i].Protected? && trace[j].Protected?
    requires IdOf(trace[i].command) == IdOf(trace[j].command)
    requires Execute(service, Run(service, store, trace[..i]), trace[i].command).Ok?
    ensures Next(service, Run(service, store, trace[..j]), trace[j]) == Run(service, store, trace[..j])
  {
    var s := Run(service, store, trace[..i]);
    RunCompletes(service, store, trace[..i]);
    var between := trace[i + 1..j];
    assert trace[..j] == trace[..i + 1] + between;
    RunJoins(service, store, trace[..i + 1], between);
    assert trace[..i + 1] == trace[..i] + [trace[i]];
    RunSnoc(service, store, trace[..i], trace[i]);
    if trace[i].command.payload == trace[j].command.payload {
      RetryLooksAgain(service, s, trace[i].command, between, trace[j].command);
    } else {
      OtherPayloadIsRefused(service, s, trace[i].command, between, trace[j].command);
    }
  }

  lemma {:induction false} RunJoins<S, P, I, F, K, A, E>(
    service: Service<S, P, I, F, K, A, E>, store: Store<S, P, K>, first: seq<Event<P, I, F>>, second: seq<Event<P, I,
      F>>)
    ensures Run(service, store, first + second) == Run(service, Run(service, store, first), second)
    decreases |second|
  {
    if second == [] {
      assert first + second == first;
    } else {
      RunJoins(service, store, first, second[..|second| - 1]);
      assert (first + second)[..|first + second| - 1] == first + second[..|second| - 1];
    }
  }

  // --- the program's form ---

  class CommandDesk<S(!new), P(==, !new), K(!new)> {
    var state: S
    var receipts: map<Id, Receipt<P, K>>

    ghost function Snapshot(): Store<S, P, K>
      reads this
    {
      Store(state, receipts)
    }

    constructor (initial: S)
      ensures Snapshot() == Store(initial, map[])
    {
      state, receipts := initial, map[];
    }

    method ValidateExisting(existing: Receipt<P, K>, payload: P) returns (r: Result<Option<K>, ()>)
      ensures r == if existing.Completed? && existing.payload == payload then Ok(Some(existing.stored)) else Err(())
    {
      if existing.payload != payload {
        return Err(());
      }
      if existing.Claimed? {
        return Err(());
      }
      r := Ok(Some(existing.stored));
    }

    // rival is the receipt another transaction committed between the lookup and
    // the insert.  The insert then raises, and the claim answers as if the
    // rival's receipt had been there from the start.
    method ClaimCommand(id: Id, payload: P, rival: Option<Receipt<P, K>>) returns (r: Result<Option<K>, ()>)
      requires rival.Some? ==> id !in receipts
      modifies this`receipts
      ensures var seen := if rival.Some? && GoodKey(id) then old(receipts)[id := rival.value] else old(receipts);
              && r == Claim(seen, id, payload)
              && receipts == if r == Ok(None) then seen[id := Claimed(payload)] else seen
    {
      if !GoodKey(id) {
        return Err(());
      }
      if id in receipts {
        r := ValidateExisting(receipts[id], payload);
        return;
      }
      if rival.Some? {
        receipts := receipts[id := rival.value];
        r := ValidateExisting(receipts[id], payload);
        return;
      }
      receipts := receipts[id := Claimed(payload)];
      r := Ok(None);
    }

    method CompleteCommand(id: Id, stored: K)
      requires id in receipts
      modifies this`receipts
      ensures receipts == old(receipts)[id := Completed(old(receipts)[id].payload, stored)]
    {
      receipts := receipts[id := Completed(receipts[id].payload, stored)];
    }

    // One service call, in the order every service function follows.
    method Perform<I, F, A, E>(
      service: Service<S, P, I, F, K, A, E>, command: Command<P, I>) returns (r: Result<A, Failure<E>>)
      modifies this
      ensures match Execute(service, old(Snapshot()), command)
              case Ok((store, answer)) => r == Ok(answer) && Snapshot() == store
              case Err(failure) => r == Err(failure) && Snapshot() == old(Snapshot())
    {
      var refused := service.gate(state, command);
      if refused.Some? {
        return Err(Raised(refused.value));
      }
      var id := IdOf(command);
      var savepoint := receipts;
      var claimed := ClaimCommand(id, command.payload, None);
      if claimed.Err? {
        return Err(IdempotencyConflict);
      }
      if claimed.value.Some? {
        var found := service.answer(state, command.payload, claimed.value.value);
        return if found.Some? then Ok(found.value) else Err(IdempotencyConflict);
      }
      var done := service.body(state, command);
      if done.Err? {
        receipts := savepoint;
        return Err(Raised(done.error));
      }
      state := done.value.0;
      CompleteCommand(id, done.value.1);
      assert receipts == savepoint[id := Completed(command.payload, done.value.1)];
      r := Ok(done.value.2);
    }
  }
}
