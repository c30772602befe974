/**
 * `UworkerEntityWrapper` (`bot/tasks/utasks/uworker_io.py`): a proxy for a
 * datastore entity on the uworker. Reads go to the entity; writes go to the
 * entity and are also recorded in a change log, a dict kept on the entity
 * itself under `_wrapped_changed_attributes`, so that the trusted side can
 * later apply just the changed fields.
 *
 * An entity's attributes are a map from name to value; the change log is the
 * attribute `ChangeLog` holding a dict.
 */
module EntityWrapper {
  import opened Wrappers
  import opened PyValues

  /** The attribute under which the change log lives on the wrapped entity. */
  const ChangeLog: string := "_wrapped_changed_attributes"

  /** `getattr(entity, attr)`: the attribute's value, or AttributeError. */
  function GetAttr(attrs: map<string, Value>, attr: string): (r: Result<Value, Exc>)
    ensures r.Success? <==> attr in attrs
    ensures r.Success? ==> r.value == attrs[attr]
    ensures r.Failure? ==> r.error == AttributeError
  {
    if attr in attrs then Success(attrs[attr]) else Failure(AttributeError)
  }

  /**
   * A write can record itself: `getattr(entity, ChangeLog, None)` is `None`
   * (and a fresh dict is put there) or a dict that item assignment extends.
   */
  predicate LogUsable(attrs: map<string, Value>) {
    ChangeLog !in attrs || attrs[ChangeLog] == VNone || attrs[ChangeLog].VDict?
  }

  /** The recorded changes, with a missing or `None` log read as no changes. */
  function LogOf(attrs: map<string, Value>): map<string, Value> {
    if ChangeLog in attrs && attrs[ChangeLog].VDict? then attrs[ChangeLog].entries else map[]
  }

  /**
   * `wrapper.attr = value` for any `attr` other than `_entity`, on the
   * entity's attributes: the write is logged, then made. A log that is
   * neither `None` nor a dict rejects item assignment with TypeError.
   */
  function SetAttr(attrs: map<string, Value>, attr: string, value: Value): (r: Result<map<string, Value>, Exc>)
    ensures r.Success? <==> LogUsable(attrs)
    ensures r.Failure? ==> r.error == TypeError
    ensures r.Success? ==> attr in r.value && r.value[attr] == value
    ensures r.Success? && attr != ChangeLog ==> ChangeLog in r.value && r.value[ChangeLog] == VDict(LogOf(attrs)[attr := value])
    ensures r.Success? ==> forall a :: a != attr && a != ChangeLog ==>
              (a in r.value <==> a in attrs) && (a in attrs ==> r.value[a] == attrs[a])
  {
    if !LogUsable(attrs) then Failure(TypeError)
    else
      var logged := attrs[ChangeLog := VDict(LogOf(attrs)[attr := value])];
      Success(logged[attr := value])
  }

  /** The writes `writes` made through one wrapper, one after another. */
  function Replay(attrs: map<string, Value>, writes: seq<(string, Value)>): Result<map<string, Value>, Exc>
    decreases |writes|
  {
    if writes == [] then Success(attrs)
    else
      match SetAttr(attrs, writes[0].0, writes[0].1)
      case Failure(e) => Failure(e)
      case Success(next) => Replay(next, writes[1..])
  }

  /** For each attribute written, the value of its last write. */
  function LastWrites(writes: seq<(string, Value)>): map<string, Value> {
    if writes == [] then map[]
    else
      var later := LastWrites(writes[1..]);
      if writes[0].0 in later then later else later[writes[0].0 := writes[0].1]
  }

  /** Exactly the attributes written have a last write. */
  lemma {:induction false} LastWritesDomain(writes: seq<(string, Value)>, a: string)
    ensures a in LastWrites(writes) <==> exists i :: 0 <= i < |writes| && writes[i].0 == a
  {
    if writes != [] {
      LastWritesDomain(writes[1..], a);
      if a in LastWrites(writes[1..]) {
        var i :| 0 <= i < |writes[1..]| && writes[1..][i].0 == a;
        assert writes[i + 1].0 == a;
      }
      if exists i :: 0 <= i < |writes| && writes[i].0 == a {
        var i :| 0 <= i < |writes| && writes[i].0 == a;
        if i > 0 {
          assert writes[1..][i - 1].0 == a;
        }
      }
    }
  }

  /** The log `__init__` should have started with: an empty dict, unless there already is one. */
  function InitLog(attrs: map<string, Value>): (r: map<string, Value>)
    ensures LogUsable(r) && LogOf(r) == LogOf(attrs)
    ensures GetAttr(r, ChangeLog).Success? && r[ChangeLog].VDict?
    ensures forall a :: a != ChangeLog ==> (a in r <==> a in attrs) && (a in attrs ==> r[a] == attrs[a])
  {
    if ChangeLog in attrs && attrs[ChangeLog].VDict? then attrs else attrs[ChangeLog := VDict(map[])]
  }

  // ---------------------------------------------------------------------------
  // Properties

  /** Logging the first write, then the later ones, logs the last writes. */
  lemma FirstWriteThenLater(log: map<string, Value>, writes: seq<(string, Value)>)
    requires writes != []
    ensures log[writes[0].0 := writes[0].1] + LastWrites(writes[1..]) == log + LastWrites(writes)
  {
  }

  /** One step of a replay: the first write, then the rest. */
  lemma ReplayStep(attrs: map<string, Value>, writes: seq<(string, Value)>)
    requires writes != [] && LogUsable(attrs) && writes[0].0 != ChangeLog
    ensures SetAttr(attrs, writes[0].0, writes[0].1).Success?
    ensures Replay(attrs, writes) == Replay(SetAttr(attrs, writes[0].0, writes[0].1).value, writes[1..])
    ensures LogUsable(SetAttr(attrs, writes[0].0, writes[0].1).value)
    ensures LogOf(SetAttr(attrs, writes[0].0, writes[0].1).value) == LogOf(attrs)[writes[0].0 := writes[0].1]
  {
  }

  /**
   * The change log holds, for every attribute written through the wrapper,
   * the value of its last write, added to what it held before.
   */
  lemma {:induction false} ReplayLogsLastWrites(attrs: map<string, Value>, writes: seq<(string, Value)>)
    requires LogUsable(attrs)
    requires forall i :: 0 <= i < |writes| ==> writes[i].0 != ChangeLog
    ensures Replay(attrs, writes).Success?
    ensures LogOf(Replay(attrs, writes).value) == LogOf(attrs) + LastWrites(writes)
    ensures writes != [] ==> ChangeLog in Replay(attrs, writes).value && Replay(attrs, writes).value[ChangeLog].VDict?
    decreases |writes|
  {
    if writes != [] {
      ReplayStep(attrs, writes);
      var rest := writes[1..];
      assert forall i :: 0 <= i < |rest| ==> rest[i].0 == writes[i + 1].0;
      ReplayLogsLastWrites(SetAttr(attrs, writes[0].0, writes[0].1).value, rest);
      FirstWriteThenLater(LogOf(attrs), writes);
    }
  }

  /**
   * Each attribute written through the wrapper reads back as its last write,
   * and no other attribute (the log aside) changes.
   */
  lemma {:induction false} ReplayWritesLastValues(attrs: map<string, Value>, writes: seq<(string, Value)>)
    requires LogUsable(attrs)
    requires forall i :: 0 <= i < |writes| ==> writes[i].0 != ChangeLog
    ensures Replay(attrs, writes).Success?
    ensures forall a :: a in LastWrites(writes) ==>
              a in Replay(attrs, writes).value && Replay(attrs, writes).value[a] == LastWrites(writes)[a]
    ensures forall a :: a != ChangeLog && a !in LastWrites(writes) ==>
              (a in Replay(attrs, writes).value <==> a in attrs) &&
              (a in attrs ==> Replay(attrs, writes).value[a] == attrs[a])
    decreases |writes|
  {
    if writes != [] {
      ReplayStep(attrs, writes);
      var rest := writes[1..];
      assert forall i :: 0 <= i < |rest| ==> rest[i].0 == writes[i + 1].0;
      ReplayWritesLastValues(SetAttr(attrs, writes[0].0, writes[0].1).value, rest);
    }
  }

  /** Starting from the log `InitLog` provides, the log is exactly the last writes. */
  lemma LogIsLastWrites(attrs: map<string, Value>, writes: seq<(string, Value)>)
    requires ChangeLog !in attrs
    requires forall i :: 0 <= i < |writes| ==> writes[i].0 != ChangeLog
    ensures Replay(InitLog(attrs), writes).Success?
    ensures GetAttr(Replay(InitLog(attrs), writes).value, ChangeLog) == Success(VDict(LastWrites(writes)))
  {
    ReplayLogsLastWrites(InitLog(attrs), writes);
    var after := Replay(InitLog(attrs), writes).value;
    if writes == [] {
      assert after == InitLog(attrs);
    }
    assert after[ChangeLog] == VDict(LogOf(after));
    assert LogOf(InitLog(attrs)) == map[];
    assert map[] + LastWrites(writes) == LastWrites(writes);
  }

  /** A write is recorded even when it stores the value the attribute already has. */
  lemma UnchangedWriteIsRecorded(attrs: map<string, Value>, attr: string)
    requires LogUsable(attrs) && attr != ChangeLog && attr in attrs
    ensures SetAttr(attrs, attr, attrs[attr]).Success?
    ensures var after := SetAttr(attrs, attr, attrs[attr]).value;
            after[attr] == attrs[attr] && attr in LogOf(after)
  {
  }

  /**
   * The tracking case: an entity with `a == 1` and no log, then `a`, `b`
   * and `c` each set to 1, logs all three.
   */
  lemma TrackingExample()
    ensures Replay(map["a" := VInt(1)], [("a", VInt(1)), ("b", VInt(1)), ("c", VInt(1))]).Success?
    ensures GetAttr(Replay(map["a" := VInt(1)], [("a", VInt(1)), ("b", VInt(1)), ("c", VInt(1))]).value, ChangeLog) ==
            Success(VDict(map["a" := VInt(1), "b" := VInt(1), "c" := VInt(1)]))
  {
    var writes := [("a", VInt(1)), ("b", VInt(1)), ("c", VInt(1))];
    var a1 := SetAttr(map["a" := VInt(1)], "a", VInt(1)).value;
    var a2 := SetAttr(a1, "b", VInt(1)).value;
    var a3 := SetAttr(a2, "c", VInt(1)).value;
    assert writes[1..][1..][1..] == [];
    assert Replay(map["a" := VInt(1)], writes) == Success(a3);
  }

  /**
   * As written: `__init__` stores only `_entity`, so a wrapper nothing was
   * written through has no log, and reading `_wrapped_changed_attributes`
   * through it raises AttributeError instead of giving `{}`.
   */
  lemma UnwrittenLogMissing(attrs: map<string, Value>)
    requires ChangeLog !in attrs
    ensures GetAttr(attrs, ChangeLog) == Failure(AttributeError)
  {
  }

  /** Corrected: with the log created up front, an unwritten wrapper reads back `{}`. */
  lemma UnwrittenLogEmpty(attrs: map<string, Value>)
    requires ChangeLog !in attrs
    ensures GetAttr(InitLog(attrs), ChangeLog) == Success(VDict(map[]))
  {
  }

  // ---------------------------------------------------------------------------
  // The objects

  /** A datastore entity: its key and its attributes, which writes change in place. */
  class Entity {
    var key: Key
    var attrs: map<string, Value>

    constructor (key: Key, attrs: map<string, Value>)
      ensures this.key == key && this.attrs == attrs
    {
      this.key := key;
      this.attrs := attrs;
    }
  }

  /** The wrapper itself: its only own state is the wrapped entity, `_entity`. */
  class UworkerEntityWrapper {
    var entity: Entity

    /** `__init__` as written: the entity is stored and nothing else happens. */
    constructor AsWritten(entity: Entity)
      ensures this.entity == entity
      ensures entity.attrs == old(entity.attrs) && entity.key == old(entity.key)
    {
      this.entity := entity;
    }

    /** `__init__` corrected: the entity is stored and gets an empty log unless it has one. */
    constructor (entity: Entity)
      modifies entity
      ensures this.entity == entity
      ensures entity.attrs == InitLog(old(entity.attrs)) && entity.key == old(entity.key)
    {
      this.entity := entity;
      new;
      if !(ChangeLog in entity.attrs && entity.attrs[ChangeLog].VDict?) {
        entity.attrs := entity.attrs[ChangeLog := VDict(map[])];
      }
    }

    /** `wrapper.attr`: `__getattr__` forwards to the entity. */
    function Get(attr: string): (r: Result<Value, Exc>)
      reads this, entity
      ensures r.Success? <==> attr in entity.attrs
      ensures r.Success? ==> r.value == entity.attrs[attr]
      ensures r.Failure? ==> r.error == AttributeError
    {
      GetAttr(entity.attrs, attr)
    }

    /** `wrapper.key`, forwarded like any other read. */
    function KeyOf(): Key
      reads this, entity
    {
      entity.key
    }

    /** `wrapper._wrapped_changed_attributes` */
    function ChangedAttributes(): (r: Result<Value, Exc>)
      reads this, entity
      ensures r.Success? <==> ChangeLog in entity.attrs
    {
      Get(ChangeLog)
    }

    /** `wrapper._entity = e`: the one write that goes to the wrapper and is never logged. */
    method SetEntity(e: Entity)
      modifies this`entity
      ensures entity == e
      ensures old(entity).attrs == old(entity.attrs) && e.attrs == old(e.attrs)
    {
      entity := e;
    }

    /** `wrapper.attr = value` for `attr` other than `_entity` (that one is `SetEntity`). */
    method Set(attr: string, value: Value) returns (r: Result<(), Exc>)
      requires attr != "_entity"
      modifies entity
      ensures SetAttr(old(entity.attrs), attr, value).Success? ==>
                r.Success? && entity.attrs == SetAttr(old(entity.attrs), attr, value).value
      ensures SetAttr(old(entity.attrs), attr, value).Failure? ==>
                r == Failure(TypeError) && entity.attrs == old(entity.attrs)
      ensures entity.key == old(entity.key)
    {
      ghost var before := entity.attrs;
      if ChangeLog !in entity.attrs || entity.attrs[ChangeLog] == VNone {
        entity.attrs := entity.attrs[ChangeLog := VDict(map[])];
      }
      var log := entity.attrs[ChangeLog];
      if !log.VDict? {
        assert !LogUsable(before) && entity.attrs == before;
        return Failure(TypeError);
      }
      assert LogUsable(before) && log.entries == LogOf(before);
      entity.attrs := entity.attrs[ChangeLog := VDict(log.entries[attr := value])];
      entity.attrs := entity.attrs[attr := value];
      assert entity.attrs == before[ChangeLog := VDict(LogOf(before)[attr := value])][attr := value];
      return Success(());
    }
  }
}
