/**
  The idempotency store: what can be saved, the two operations the pipeline uses, and what
  follows for every run when responses are dumped as they are.
*/
module Idempotency {
  import opened Wrappers
  import opened RedisModel
  import opened SessionLimits
  import opened SessionProtocol

  /** Python values as a response's `model_dump` leaves them: identifiers are still UUID objects. */
  datatype PyValue =
    | PyNone
    | PyBool(b: bool)
    | PyInt(i: int)
    | PyStr(s: string)
    | PyUuid(id: string)
    | PyDict(fields: seq<(string, PyValue)>)

  /** `json.dumps` raises on a UUID anywhere inside. */
  predicate Dumpable(v: PyValue) {
    match v
    case PyUuid(_) => false
    case PyDict(fields) => forall p | p in fields :: Dumpable(p.1)
    case _ => true
  }

  /** What a response says besides its text and session. */
  datatype Usage = Usage(newUser: bool, tokens: int, latency: int)

  /** `model_dump()` of the two response classes. */
  function ModelDump(reply: Reply, usage: Usage): PyValue {
    match reply.mode
    case Integration =>
      PyDict([("response", PyStr(reply.body)), ("session_id", PyUuid(reply.session)),
          ("is_new_user", PyBool(usage.newUser))])
    case User =>
      var metadata := PyDict([("tokens_used", PyInt(usage.tokens)), ("latency_ms", PyInt(usage.latency)),
          ("perf_breakdown", PyNone)]);
      PyDict([("session_id", PyUuid(reply.session)), ("reply", PyStr(reply.body)), ("role", PyStr("assistant")),
              ("metadata", metadata)])
  }

  /** A dump in JSON mode: identifiers become strings. */
  function JsonMode(v: PyValue): PyValue {
    match v
    case PyUuid(id) => PyStr(id)
    case PyDict(fields) =>
      PyDict(seq(|fields|, i requires 0 <= i < |fields| => (fields[i].0, JsonMode(fields[i].1))))
    case _ => v
  }

  /** A value can be saved exactly when JSON mode has nothing to change in it. */
  lemma {:induction false} DumpableIff(v: PyValue)
    ensures Dumpable(JsonMode(v))
    ensures Dumpable(v) <==> JsonMode(v) == v
  {
    if v.PyDict? {
      var fs, js := v.fields, JsonMode(v).fields;
      forall i | 0 <= i < |fs|
        ensures Dumpable(js[i].1) && (Dumpable(fs[i].1) <==> js[i] == fs[i])
      {
        DumpableIff(fs[i].1);
      }
      assert forall p :: p in js ==> exists i :: 0 <= i < |js| && js[i] == p;
      if Dumpable(v) {
        assert forall i :: 0 <= i < |fs| ==> fs[i] in fs;
        assert js == fs;
      }
      if js == fs {
        assert forall p :: p in fs ==> exists i :: 0 <= i < |fs| && fs[i] == p;
      }
    }
  }

  /** No response either class can build is dumpable, so `save` always raises before its `set`. */
  lemma ResponsesNeverDump(reply: Reply, usage: Usage)
    ensures !Dumpable(ModelDump(reply, usage))
  {
    var fields := ModelDump(reply, usage).fields;
    var p := ("session_id", PyUuid(reply.session));
    assert fields[if reply.mode == User then 0 else 1] == p;
    assert p in fields && !Dumpable(p.1);
  }

  /** How a save goes: the dump is encoded first, and only then may Redis have its say. */
  function SaveFateOf(dump: PyValue, redis: SaveFate): SaveFate {
    if Dumpable(dump) then redis else SetFails
  }

  /** Every request's save is decided by the dump of its own response. */
  ghost predicate SavesDumps(run: seq<Action>) {
    forall n :: 0 <= n < |run| && run[n].Arrive? ==> DumpDecides(run[n].req, run[n].fate)
  }

  ghost predicate DumpDecides(req: Request, fate: Fate) {
    exists usage: Usage, redis: SaveFate ::
      fate.saves == SaveFateOf(ModelDump(NewTask(req, fate).Answer(), usage), redis)
  }

  /**
    The chain in full: the session id in every dump makes every save raise, so in no run is a
    result ever stored or a hit ever served, and a retried key runs the whole pipeline again.
  */
  lemma DumpedSavesNeverHit(run: seq<Action>, q: nat)
    requires SavesDumps(run) && q < |After(run).shared.events|
    ensures !After(run).shared.events[q].what.Hit? && !After(run).shared.events[q].what.Stored?
  {
    forall n | 0 <= n < |run| && run[n].Arrive? ensures run[n].fate.saves == SetFails {
      assert DumpDecides(run[n].req, run[n].fate);
      var usage: Usage, redis: SaveFate :|
        run[n].fate.saves == SaveFateOf(ModelDump(NewTask(run[n].req, run[n].fate).Answer(), usage), redis);
      ResponsesNeverDump(NewTask(run[n].req, run[n].fate).Answer(), usage);
    }
    FailingSavesNeverHit(run, q);
  }

  /** What the application hands to `save`: the dump, or, were it asked for, the dump in JSON mode. */
  function Dump(reply: Reply, usage: Usage, jsonMode: bool): PyValue {
    if jsonMode then JsonMode(ModelDump(reply, usage)) else ModelDump(reply, usage)
  }

  /** The fate a request meets, its save decided by the dump. */
  function Determined(fate: Fate, jsonMode: bool): Fate {
    if jsonMode then fate else fate.(saves := SetFails)
  }

  lemma DumpDetermines(reply: Reply, usage: Usage, redis: SaveFate, jsonMode: bool)
    ensures SaveFateOf(Dump(reply, usage, jsonMode), redis) == if jsonMode then redis else SetFails
  {
    if jsonMode {
      DumpableIff(ModelDump(reply, usage));
    } else {
      ResponsesNeverDump(reply, usage);
    }
  }

  /** The value under a key of a dict. */
  function Field(fields: seq<(string, PyValue)>, key: string): Option<PyValue> {
    if fields == [] then None
    else if fields[0].0 == key then Some(fields[0].1)
    else Field(fields[1..], key)
  }

  /** `model_validate` of a saved dict by one of the response classes: every required field, or an error. */
  function Validated(mode: Mode, v: PyValue): Option<Reply> {
    if !v.PyDict? then None
    else
      var text := Field(v.fields, if mode == Integration then "response" else "reply");
      var id := Field(v.fields, "session_id");
      var last := Field(v.fields, if mode == Integration then "is_new_user" else "metadata");
      if text.Some? && text.value.PyStr? && id.Some? && id.value.PyStr? && last.Some?
      then Some(Reply(mode, id.value.s, text.value.s)) else None
  }

  lemma FieldCons(p: (string, PyValue), rest: seq<(string, PyValue)>, key: string)
    ensures Field([p] + rest, key) == if p.0 == key then Some(p.1) else Field(rest, key)
  {
    assert ([p] + rest)[1..] == rest;
  }

  /** The first of four entries under a key. */
  lemma FieldOfFour(a: (string, PyValue), b: (string, PyValue), c: (string, PyValue), rest: seq<(string, PyValue)>,
                    key: string)
    ensures Field([a] + ([b] + ([c] + rest)), key)
            == if a.0 == key then Some(a.1) else if b.0 == key then Some(b.1) else if c.0 == key then Some(c.1)
               else Field(rest, key)
  {
    FieldCons(a, [b] + ([c] + rest), key);
    FieldCons(b, [c] + rest, key);
    FieldCons(c, rest, key);
  }

  /** The entries of a dump in JSON mode. */
  lemma JsonFields(reply: Reply, usage: Usage)
    ensures var d, fs := ModelDump(reply, usage).fields, JsonMode(ModelDump(reply, usage)).fields;
            |fs| == |d| && forall i :: 0 <= i < |d| ==> fs[i] == (d[i].0, JsonMode(d[i].1))
    ensures JsonMode(PyUuid(reply.session)) == PyStr(reply.session) && JsonMode(PyStr(reply.body)) == PyStr(reply.body)
  {
  }

  lemma IntegrationFields(reply: Reply, usage: Usage, key: string)
    requires reply.mode == Integration
    ensures Field(JsonMode(ModelDump(reply, usage)).fields, key)
            == if key == "response" then Some(PyStr(reply.body))
               else if key == "session_id" then Some(PyStr(reply.session))
               else if key == "is_new_user" then Some(PyBool(usage.newUser)) else None
  {
    JsonFields(reply, usage);
    var d, fs := ModelDump(reply, usage).fields, JsonMode(ModelDump(reply, usage)).fields;
    assert d[0] == ("response", PyStr(reply.body)) && d[1] == ("session_id", PyUuid(reply.session));
    assert fs[3..] == [] && fs == [fs[0]] + ([fs[1]] + ([fs[2]] + fs[3..]));
    FieldOfFour(fs[0], fs[1], fs[2], fs[3..], key);
  }

  lemma UserFields(reply: Reply, usage: Usage, key: string)
    requires reply.mode == User
    ensures var fs := JsonMode(ModelDump(reply, usage)).fields;
            Field(fs, key)
            == if key == "session_id" then Some(PyStr(reply.session))
               else if key == "reply" then Some(PyStr(reply.body))
               else if key == "role" then Some(PyStr("assistant"))
               else if key == "metadata" && |fs| == 4 then Some(fs[3].1) else None
    ensures |JsonMode(ModelDump(reply, usage)).fields| == 4
  {
    JsonFields(reply, usage);
    var d, fs := ModelDump(reply, usage).fields, JsonMode(ModelDump(reply, usage)).fields;
    assert d[0] == ("session_id", PyUuid(reply.session)) && d[1] == ("reply", PyStr(reply.body));
    assert fs[3..] == [fs[3]] + [] && fs == [fs[0]] + ([fs[1]] + ([fs[2]] + fs[3..]));
    FieldOfFour(fs[0], fs[1], fs[2], fs[3..], key);
    FieldCons(fs[3], [], key);
  }

  /**
    Round trip. A response dumped in JSON mode and validated by its own class is the response
    again; the other class refuses it.
  */
  lemma DumpRoundTrips(reply: Reply, usage: Usage, mode: Mode)
    ensures Validated(mode, JsonMode(ModelDump(reply, usage))) == if mode == reply.mode then Some(reply) else None
  {
    var text, last := if mode == Integration then "response" else "reply",
        if mode == Integration then "is_new_user" else "metadata";
    if reply.mode == User {
      UserFields(reply, usage, text);
      UserFields(reply, usage, "session_id");
      UserFields(reply, usage, last);
    } else {
      IntegrationFields(reply, usage, text);
      IntegrationFields(reply, usage, "session_id");
      IntegrationFields(reply, usage, last);
    }
  }

  class IdempotencyService {
    const redis: RedisClient

    constructor (redis: RedisClient)
      ensures this.redis == redis
    {
      this.redis := redis;
    }

    method Get(key: string) returns (reply: Option<Reply>)
      ensures reply == match redis.State().Get(IdemResult(key))
                       case Some(Saved(r)) => Some(r)
                       case _ => None
    {
      var raw := redis.Get(IdemResult(key));
      reply := None;
      if raw.Some? && raw.value.Saved? {
        reply := Some(raw.value.reply);
      }
    }

    /** Encodes and sets the result, then drops the processing lock; `fate` says which Redis call raises. */
    method Save(key: string, reply: Reply, dump: PyValue, fate: SaveFate) returns (ok: bool)
      modifies redis
      ensures redis.State() == SaveStore(old(redis.State()), key, reply, SaveFateOf(dump, fate))
      ensures ok <==> SaveFateOf(dump, fate) == SaveOk
      ensures var before, after := old(redis.State()), redis.State();
              if !Dumpable(dump) || fate == SetFails then after == before
              else
                && IdemResult(key) in after.data
                && after.data[IdemResult(key)] == Entry(Saved(reply), Some(before.now + 86_400_000))
                && (fate == SaveOk ==> IdemLock(key) !in after.data)
                && forall k :: k != IdemResult(key) && (k != IdemLock(key) || fate != SaveOk) ==>
                     (k in after.data <==> k in before.data)
                     && (k in before.data ==> after.data[k] == before.data[k])
    {
      if !Dumpable(dump) || fate == SetFails {
        return false;
      }
      redis.Set(IdemResult(key), Saved(reply), IDEM_TTL);
      if fate == UnlockFails {
        return false;
      }
      redis.Delete(IdemLock(key));
      ok := true;
    }
  }
}
