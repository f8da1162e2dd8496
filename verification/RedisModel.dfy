/**
  The one Redis the application coordinates through: a map whose entries may carry
  an absolute expiry, and a clock in milliseconds. Every command the adapters issue is
  a pure function on `Store`; `RedisClient` performs the same commands in place.
*/
module RedisModel {
  import opened Wrappers

  const SECOND: nat := 1000

  /** One constructor for each key format the services use. */
  datatype Key =
    | SessionLock(id: string)
    | SummaryLock(session: string)
    | IdemResult(key: string)
    | IdemLock(key: string)
    | History(session: string)
    | Count(session: string)
    | Bucket(session: string, number: int)
    | FailureCount(service: string)
    | CircuitOpen(service: string)
    | ProbeGate(service: string)

  datatype Mode = User | Integration

  /** A chat response: which of the two response classes it is, and what it says. */
  datatype Reply = Reply(mode: Mode, session: string, body: string)

  datatype Turn = Turn(role: string, content: string)

  datatype BucketStatus = Enqueued | Processed

  datatype Value =
    | Token(id: nat)
    | Number(n: int)
    | Saved(reply: Reply)
    | Window(turns: seq<Turn>)
    | Status(status: BucketStatus)
    | Flag

  datatype Entry = Entry(value: Value, expires: Option<nat>)

  datatype Store = Store(now: nat, data: map<Key, Entry>) {
    /** An expired entry is as good as absent. */
    predicate Live(k: Key) {
      k in data && (data[k].expires.None? || now < data[k].expires.value)
    }

    predicate Has(k: Key, v: Value) {
      Live(k) && data[k].value == v
    }

    function Get(k: Key): Option<Value> {
      if Live(k) then Some(data[k].value) else None
    }

    function SetEx(k: Key, v: Value, ttl: nat): Store {
      this.(data := data[k := Entry(v, Some(now + ttl))])
    }

    /** SET NX EX: the store afterwards; it succeeded exactly when `!Live(k)`. */
    function SetNx(k: Key, v: Value, ttl: nat): Store {
      if Live(k) then this else SetEx(k, v, ttl)
    }

    function Delete(k: Key): Store {
      this.(data := data - {k})
    }

    /** The Lua release script: delete the key only while it still holds `v`. */
    function DeleteIf(k: Key, v: Value): Store {
      if Has(k, v) then Delete(k) else this
    }

    function NumberAt(k: Key): int {
      if Live(k) && data[k].value.Number? then data[k].value.n else 0
    }

    /** INCRBY and DECRBY: a missing key counts as 0 and is created without an expiry. */
    function AddTo(k: Key, amount: int): Store {
      this.(data := data[k := Entry(Number(NumberAt(k) + amount),
                                    if Live(k) then data[k].expires else None)])
    }

    function Expire(k: Key, ttl: nat): Store {
      if Live(k) then this.(data := data[k := Entry(data[k].value, Some(now + ttl))]) else this
    }

    function Advance(ms: nat): Store {
      this.(now := now + ms)
    }
  }

  /** The client wrapper: the same commands, in place. */
  class RedisClient {
    var now: nat
    var data: map<Key, Entry>

    constructor ()
      ensures State() == Store(0, map[])
    {
      now, data := 0, map[];
    }

    ghost function State(): Store
      reads this
    {
      Store(now, data)
    }

    predicate Alive(k: Key)
      reads this
    {
      k in data && (data[k].expires.None? || now < data[k].expires.value)
    }

    method Get(k: Key) returns (v: Option<Value>)
      ensures v == State().Get(k)
    {
      v := if Alive(k) then Some(data[k].value) else None;
    }

    method Set(k: Key, v: Value, ttl: nat)
      modifies this
      ensures State() == old(State()).SetEx(k, v, ttl)
    {
      data := data[k := Entry(v, Some(now + ttl))];
    }

    method SetNx(k: Key, v: Value, ttl: nat) returns (ok: bool)
      modifies this
      ensures State() == old(State()).SetNx(k, v, ttl)
      ensures ok == !old(State()).Live(k)
    {
      ok := !Alive(k);
      if ok {
        data := data[k := Entry(v, Some(now + ttl))];
      }
    }

    method Delete(k: Key)
      modifies this
      ensures State() == old(State()).Delete(k)
    {
      data := data - {k};
    }

    method Exists(k: Key) returns (r: bool)
      ensures r == State().Live(k)
    {
      r := Alive(k);
    }

    method Expire(k: Key, ttl: nat)
      modifies this
      ensures State() == old(State()).Expire(k, ttl)
    {
      if Alive(k) {
        data := data[k := Entry(data[k].value, Some(now + ttl))];
      }
    }

    method IncrBy(k: Key, amount: int) returns (n: int)
      modifies this
      ensures State() == old(State()).AddTo(k, amount)
      ensures n == old(State()).NumberAt(k) + amount
    {
      var kept: Option<nat> := None;
      n := amount;
      if Alive(k) {
        kept := data[k].expires;
        if data[k].value.Number? {
          n := data[k].value.n + amount;
        }
      }
      data := data[k := Entry(Number(n), kept)];
    }

    /** EVAL of the compare-and-delete script: one indivisible command. */
    method EvalDeleteIf(k: Key, v: Value) returns (deleted: bool)
      modifies this
      ensures State() == old(State()).DeleteIf(k, v)
      ensures deleted == old(State()).Has(k, v)
    {
      deleted := Alive(k) && data[k].value == v;
      if deleted {
        data := data - {k};
      }
    }
  }
}
