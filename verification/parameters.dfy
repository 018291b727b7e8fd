/**
 The six typed parameter tables (string, integer, float, boolean, path and
 unextracted path). Each row binds one plugin parameter of one instance to a
 value, and each table is unique per (instance, parameter).
 */
module Parameters {
  import opened Results
  import opened Instances

  /** Primary key of a plugin parameter descriptor. */
  type ParamId = nat

  /** A float column value, kept opaque as its 64 bits. */
  datatype FloatValue = FloatValue(bits: bv64)

  /** One row of a typed parameter table. */
  datatype Binding<V> = Binding(inst: Id, param: ParamId, value: V)

  /** A typed parameter table in row order. */
  type Table<V> = seq<Binding<V>>

  /** The `unique_together = ('plugin_inst', 'plugin_param')` constraint. */
  ghost predicate UniquePerPair<V>(t: Table<V>) {
    forall i, j :: 0 <= i < j < |t| ==> t[i].inst != t[j].inst || t[i].param != t[j].param
  }

  predicate IsBound<V>(t: Table<V>, inst: Id, param: ParamId) {
    exists k :: 0 <= k < |t| && t[k].inst == inst && t[k].param == param
  }

  /** Why an insert is refused: the uniqueness constraint. */
  datatype ParamError = DuplicateParameter(inst: Id, param: ParamId)

  /** Inserting a row: refused when the pair is already bound, appended otherwise. */
  function Bind<V>(t: Table<V>, inst: Id, param: ParamId, v: V): (r: Result<Table<V>, ParamError>)
    ensures r.Ok? <==> !IsBound(t, inst, param)
    ensures r.Ok? ==> r.value == t + [Binding(inst, param, v)]
    ensures r.Err? ==> r.error == DuplicateParameter(inst, param)
    ensures UniquePerPair(t) && r.Ok? ==> UniquePerPair(r.value)
  {
    if IsBound(t, inst, param) then Err(DuplicateParameter(inst, param))
    else Ok(t + [Binding(inst, param, v)])
  }

  /** A second binding of the same pair is refused, whatever the values. */
  lemma BindTwiceRefused<V>(t: Table<V>, inst: Id, param: ParamId, v: V, w: V)
    requires Bind(t, inst, param, v).Ok?
    ensures Bind(Bind(t, inst, param, v).value, inst, param, w) == Err(DuplicateParameter(inst, param))
  {
    var t' := Bind(t, inst, param, v).value;
    assert t'[|t|] == Binding(inst, param, v);
  }

  /** How many rows of `t` belong to `inst`. */
  function CountOf<V>(t: Table<V>, inst: Id): nat {
    if |t| == 0 then 0 else (if t[0].inst == inst then 1 else 0) + CountOf(t[1..], inst)
  }

  /** The rows of one instance, in table order: the reverse relation `*_param.all()`. */
  function RowsOf<V>(t: Table<V>, inst: Id): (r: Table<V>)
    ensures forall k :: 0 <= k < |r| ==> r[k] in t && r[k].inst == inst
    ensures forall k :: 0 <= k < |t| && t[k].inst == inst ==> t[k] in r
    ensures |r| == CountOf(t, inst) <= |t|
    ensures UniquePerPair(t) ==> UniquePerPair(r)
  {
    if |t| == 0 then []
    else
      var rest := RowsOf(t[1..], inst);
      assert forall k :: 0 <= k < |rest| ==> rest[k] in t;
      ConsUnique(t, rest);
      if t[0].inst == inst then [t[0]] + rest else rest
  }

  /** The head of a unique table, put in front of rows from its tail, keeps them unique. */
  lemma ConsUnique<V>(t: Table<V>, rest: Table<V>)
    requires |t| > 0
    requires forall k :: 0 <= k < |rest| ==> rest[k] in t[1..]
    ensures UniquePerPair(t) ==> UniquePerPair(t[1..])
    ensures UniquePerPair(t) && UniquePerPair(rest) ==> UniquePerPair([t[0]] + rest)
  {
    if !UniquePerPair(t) {
      return;
    }
    assert forall k :: 1 <= k < |t| ==> t[k] == t[1..][k - 1];
    var r := [t[0]] + rest;
    forall k | 0 <= k < |rest|
      ensures rest[k].inst != t[0].inst || rest[k].param != t[0].param
    {
      var j :| 0 <= j < |t[1..]| && t[1..][j] == rest[k];
    }
  }

  /** The six tables of the parameter store. */
  datatype ParameterStore = ParameterStore(
    unextpath: Table<string>,
    path: Table<string>,
    str: Table<string>,
    integer: Table<int>,
    float: Table<FloatValue>,
    boolean: Table<bool>)

  ghost predicate StoreUnique(s: ParameterStore) {
    && UniquePerPair(s.unextpath) && UniquePerPair(s.path) && UniquePerPair(s.str)
    && UniquePerPair(s.integer) && UniquePerPair(s.float) && UniquePerPair(s.boolean)
  }

  /** A row of any of the six tables, tagged with its table. */
  datatype ParameterInstance =
    | UnextpathParam(u: Binding<string>)
    | PathParam(p: Binding<string>)
    | StrParam(s: Binding<string>)
    | IntParam(i: Binding<int>)
    | FloatParam(f: Binding<FloatValue>)
    | BoolParam(b: Binding<bool>)
  {
    /** Position of the row's table in the fixed collection order. */
    function KindOrder(): nat {
      match this
      case UnextpathParam(_) => 0
      case PathParam(_) => 1
      case StrParam(_) => 2
      case IntParam(_) => 3
      case FloatParam(_) => 4
      case BoolParam(_) => 5
    }

    function Inst(): Id {
      match this
      case UnextpathParam(x) => x.inst
      case PathParam(x) => x.inst
      case StrParam(x) => x.inst
      case IntParam(x) => x.inst
      case FloatParam(x) => x.inst
      case BoolParam(x) => x.inst
    }

    function Param(): ParamId {
      match this
      case UnextpathParam(x) => x.param
      case PathParam(x) => x.param
      case StrParam(x) => x.param
      case IntParam(x) => x.param
      case FloatParam(x) => x.param
      case BoolParam(x) => x.param
    }
  }

  /** Kinds never decrease along `r`: the tables come one after another. */
  predicate KindsOrdered(r: seq<ParameterInstance>) {
    forall j, k :: 0 <= j < k < |r| ==> r[j].KindOrder() <= r[k].KindOrder()
  }

  /** No two rows of `r` from the same table bind the same parameter. */
  predicate NoRepeatedParam(r: seq<ParameterInstance>) {
    forall j, k :: 0 <= j < k < |r| && r[j].KindOrder() == r[k].KindOrder() ==>
      r[j].Param() != r[k].Param()
  }

  predicate AllOfKind(r: seq<ParameterInstance>, kind: nat) {
    forall k :: 0 <= k < |r| ==> r[k].KindOrder() == kind
  }

  predicate AllAbove(r: seq<ParameterInstance>, kind: nat) {
    forall k :: 0 <= k < |r| ==> r[k].KindOrder() > kind
  }

  predicate AllOf(r: seq<ParameterInstance>, inst: Id) {
    forall k :: 0 <= k < |r| ==> r[k].Inst() == inst
  }

  /** The rows of one table, all of one instance, tagged with that table. */
  ghost predicate TaggedBlock<V>(r: seq<ParameterInstance>, rows: Table<V>, inst: Id, kind: nat) {
    && |r| == |rows|
    && AllOfKind(r, kind)
    && AllOf(r, inst)
    && (forall k :: 0 <= k < |r| ==> r[k].Param() == rows[k].param)
    && (UniquePerPair(rows) ==> NoRepeatedParam(r))
  }

  /**
   The rows of one table tagged with that table's constructor `tag`, whose
   rows all carry position `kind` in the collection order.
   */
  function Tag<V>(rows: Table<V>, inst: Id, tag: Binding<V> -> ParameterInstance, kind: nat)
    : (r: seq<ParameterInstance>)
    requires forall k :: 0 <= k < |rows| ==> rows[k].inst == inst
    requires forall k :: 0 <= k < |rows| ==>
      && tag(rows[k]).KindOrder() == kind
      && tag(rows[k]).Inst() == rows[k].inst
      && tag(rows[k]).Param() == rows[k].param
    ensures TaggedBlock(r, rows, inst, kind)
    ensures forall k :: 0 <= k < |rows| ==> tag(rows[k]) in r
  {
    var r := seq(|rows|, k requires 0 <= k < |rows| => tag(rows[k]));
    assert forall k :: 0 <= k < |rows| ==> r[k] == tag(rows[k]);
    r
  }

  /** Putting a block of one kind in front of rows of later kinds keeps the order and the uniqueness. */
  lemma PrependBlock(a: seq<ParameterInstance>, b: seq<ParameterInstance>, kind: nat, inst: Id)
    requires AllOfKind(a, kind) && AllOf(a, inst)
    requires AllAbove(b, kind) && KindsOrdered(b) && AllOf(b, inst)
    ensures KindsOrdered(a + b) && AllOf(a + b, inst)
    ensures kind > 0 ==> AllAbove(a + b, kind - 1)
    ensures NoRepeatedParam(a) && NoRepeatedParam(b) ==> NoRepeatedParam(a + b)
  {
    var r := a + b;
    assert forall k :: 0 <= k < |a| ==> r[k] == a[k];
    assert forall k :: |a| <= k < |r| ==> r[k] == b[k - |a|];
  }

  /** The six tables' blocks for one instance, in collection order. */
  function UnextpathBlock(s: ParameterStore, inst: Id): seq<ParameterInstance> {
    Tag(RowsOf(s.unextpath, inst), inst, x => UnextpathParam(x), 0)
  }

  function PathBlock(s: ParameterStore, inst: Id): seq<ParameterInstance> {
    Tag(RowsOf(s.path, inst), inst, x => PathParam(x), 1)
  }

  function StrBlock(s: ParameterStore, inst: Id): seq<ParameterInstance> {
    Tag(RowsOf(s.str, inst), inst, x => StrParam(x), 2)
  }

  function IntBlock(s: ParameterStore, inst: Id): seq<ParameterInstance> {
    Tag(RowsOf(s.integer, inst), inst, x => IntParam(x), 3)
  }

  function FloatBlock(s: ParameterStore, inst: Id): seq<ParameterInstance> {
    Tag(RowsOf(s.float, inst), inst, x => FloatParam(x), 4)
  }

  function BoolBlock(s: ParameterStore, inst: Id): seq<ParameterInstance> {
    Tag(RowsOf(s.boolean, inst), inst, x => BoolParam(x), 5)
  }

  /**
   `get_parameter_instances`: every row of the instance, unextracted paths first,
   then paths, strings, integers, floats and booleans.
   */
  function ParameterInstances(s: ParameterStore, inst: Id): (r: seq<ParameterInstance>)
    ensures |r| == CountOf(s.unextpath, inst) + CountOf(s.path, inst) + CountOf(s.str, inst)
                 + CountOf(s.integer, inst) + CountOf(s.float, inst) + CountOf(s.boolean, inst)
    ensures AllOf(r, inst)
    ensures KindsOrdered(r)
    ensures StoreUnique(s) ==> NoRepeatedParam(r)
  {
    var u, p, t := UnextpathBlock(s, inst), PathBlock(s, inst), StrBlock(s, inst);
    var i, f, b := IntBlock(s, inst), FloatBlock(s, inst), BoolBlock(s, inst);
    PrependBlock(f, b, 4, inst);
    PrependBlock(i, f + b, 3, inst);
    PrependBlock(t, i + (f + b), 2, inst);
    PrependBlock(p, t + (i + (f + b)), 1, inst);
    PrependBlock(u, p + (t + (i + (f + b))), 0, inst);
    u + (p + (t + (i + (f + b))))
  }

  /** Every row of the instance, in any of the six tables, is collected. */
  lemma ParameterInstancesComplete(s: ParameterStore, inst: Id)
    ensures var r := ParameterInstances(s, inst);
      && (forall k :: 0 <= k < |s.unextpath| && s.unextpath[k].inst == inst ==>
            UnextpathParam(s.unextpath[k]) in r)
      && (forall k :: 0 <= k < |s.path| && s.path[k].inst == inst ==> PathParam(s.path[k]) in r)
      && (forall k :: 0 <= k < |s.str| && s.str[k].inst == inst ==> StrParam(s.str[k]) in r)
      && (forall k :: 0 <= k < |s.integer| && s.integer[k].inst == inst ==> IntParam(s.integer[k]) in r)
      && (forall k :: 0 <= k < |s.float| && s.float[k].inst == inst ==> FloatParam(s.float[k]) in r)
      && (forall k :: 0 <= k < |s.boolean| && s.boolean[k].inst == inst ==> BoolParam(s.boolean[k]) in r)
  {
    BlocksCollected(s, inst);
    forall k | 0 <= k < |s.unextpath| && s.unextpath[k].inst == inst
      ensures UnextpathParam(s.unextpath[k]) in UnextpathBlock(s, inst)
    {
      RowCollected(s.unextpath, inst, x => UnextpathParam(x), 0, k);
    }
    forall k | 0 <= k < |s.path| && s.path[k].inst == inst
      ensures PathParam(s.path[k]) in PathBlock(s, inst)
    {
      RowCollected(s.path, inst, x => PathParam(x), 1, k);
    }
    forall k | 0 <= k < |s.str| && s.str[k].inst == inst
      ensures StrParam(s.str[k]) in StrBlock(s, inst)
    {
      RowCollected(s.str, inst, x => StrParam(x), 2, k);
    }
    forall k | 0 <= k < |s.integer| && s.integer[k].inst == inst
      ensures IntParam(s.integer[k]) in IntBlock(s, inst)
    {
      RowCollected(s.integer, inst, x => IntParam(x), 3, k);
    }
    forall k | 0 <= k < |s.float| && s.float[k].inst == inst
      ensures FloatParam(s.float[k]) in FloatBlock(s, inst)
    {
      RowCollected(s.float, inst, x => FloatParam(x), 4, k);
    }
    forall k | 0 <= k < |s.boolean| && s.boolean[k].inst == inst
      ensures BoolParam(s.boolean[k]) in BoolBlock(s, inst)
    {
      RowCollected(s.boolean, inst, x => BoolParam(x), 5, k);
    }
  }

  /** A row of the instance in a table appears, tagged, in that table's block. */
  lemma RowCollected<V>(t: Table<V>, inst: Id, tag: Binding<V> -> ParameterInstance, kind: nat, k: nat)
    requires k < |t| && t[k].inst == inst
    requires forall x: Binding<V> | x in t :: tag(x).KindOrder() == kind && tag(x).Inst() == x.inst
                                              && tag(x).Param() == x.param
    ensures tag(t[k]) in Tag(RowsOf(t, inst), inst, tag, kind)
  {
    var rows := RowsOf(t, inst);
    var m :| 0 <= m < |rows| && rows[m] == t[k];
  }

  /** Each table's block is part of the collection. */
  lemma BlocksCollected(s: ParameterStore, inst: Id)
    ensures forall x ::
      (|| x in UnextpathBlock(s, inst) || x in PathBlock(s, inst) || x in StrBlock(s, inst)
       || x in IntBlock(s, inst) || x in FloatBlock(s, inst) || x in BoolBlock(s, inst))
      ==> x in ParameterInstances(s, inst)
  {
    var u, p, t := UnextpathBlock(s, inst), PathBlock(s, inst), StrBlock(s, inst);
    var i, f, b := IntBlock(s, inst), FloatBlock(s, inst), BoolBlock(s, inst);
    assert ParameterInstances(s, inst) == u + (p + (t + (i + (f + b))));
    InSix(u, p, t, i, f, b);
  }

  /** Each of six blocks is contained in their concatenation. */
  lemma InSix<T>(u: seq<T>, p: seq<T>, t: seq<T>, i: seq<T>, f: seq<T>, b: seq<T>)
    ensures var r := u + (p + (t + (i + (f + b))));
      forall x :: (x in u || x in p || x in t || x in i || x in f || x in b) ==> x in r
  {
  }
}
