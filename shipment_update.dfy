/**
 * `updateShipment`: the SET list built from the arguments that are present,
 * with consecutively numbered placeholders, and the UPDATE statement it
 * becomes. A small executor of that statement shape gives the numbering its
 * meaning: running the built statement applies exactly the present arguments.
 */
module ShipmentUpdate {
  import opened Options
  import opened Decimal
  import opened ShipmentRows

  /** The updatable shipment fields, named as the mutation's arguments. */
  datatype Column =
    | CustomerIdColumn
    | OriginAddressColumn
    | DestinationAddressColumn
    | STypeColumn
    | WeightColumn
    | StatusColumn
    | VehicleIdColumn

  /** An argument value as bound to a statement parameter. */
  datatype Value = Null | Text(text: string) | Int(n: nat) | Float(w: Weight)

  /** One mutation argument, in argument order; a `None` value is `undefined`. */
  datatype UpdateArg = UpdateArg(key: Column, value: Option<Value>)

  /** `<column> = $<param>` */
  datatype SetClause = SetClause(column: string, param: nat)

  /** `UPDATE shipments SET <sets> WHERE shipment_id = $<whereParam>` with its bound parameters. */
  datatype UpdateStatement = UpdateStatement(sets: seq<SetClause>, whereParam: nat, params: seq<Value>)

  /**
   * The column name used for an argument key. The source maps `S_type` to
   * `S_type` and every other key to itself, so the name is always the key.
   */
  function ColumnName(c: Column): (name: string)
    ensures ColumnNamed(name) == Some(c)
  {
    match c
    case CustomerIdColumn => "customer_id"
    case OriginAddressColumn => "origin_address"
    case DestinationAddressColumn => "destination_address"
    case STypeColumn => "S_type"
    case WeightColumn => "weight"
    case StatusColumn => "status"
    case VehicleIdColumn => "vehicle_id"
  }

  /** The column a name in a SET clause refers to, if any. */
  function ColumnNamed(name: string): Option<Column> {
    if name == "customer_id" then Some(CustomerIdColumn)
    else if name == "origin_address" then Some(OriginAddressColumn)
    else if name == "destination_address" then Some(DestinationAddressColumn)
    else if name == "S_type" then Some(STypeColumn)
    else if name == "weight" then Some(WeightColumn)
    else if name == "status" then Some(StatusColumn)
    else if name == "vehicle_id" then Some(VehicleIdColumn)
    else None
  }

  /** Whether a value has the column's type (the GraphQL schema enforces it). */
  predicate Fits(c: Column, v: Value) {
    match c
    case CustomerIdColumn => v.Int?
    case WeightColumn => v.Float?
    case VehicleIdColumn => v.Text? || v.Null?
    case _ => v.Text?
  }

  /** Argument keys of a JavaScript object are distinct. */
  predicate DistinctKeys(args: seq<UpdateArg>) {
    forall i, j :: 0 <= i < j < |args| ==> args[i].key != args[j].key
  }

  predicate PresentFit(args: seq<UpdateArg>) {
    forall i :: 0 <= i < |args| && args[i].value.Some? ==> Fits(args[i].key, args[i].value.value)
  }

  /** Every argument is present, has its column's type, and no column is named twice. */
  predicate Applicable(present: seq<UpdateArg>) {
    && (forall j :: 0 <= j < |present| ==>
          present[j].value.Some? && Fits(present[j].key, present[j].value.value))
    && DistinctKeys(present)
  }

  predicate Mentions(args: seq<UpdateArg>, c: Column) {
    exists j :: 0 <= j < |args| && args[j].key == c
  }

  /** The arguments whose value is not `undefined`, in argument order. */
  function Present(args: seq<UpdateArg>): (r: seq<UpdateArg>)
    ensures |r| <= |args|
    ensures forall j :: 0 <= j < |r| ==> r[j].value.Some?
  {
    if args == [] then []
    else
      var init := args[..|args| - 1];
      var last := args[|args| - 1];
      assert args == init + [last];
      Present(init) + (if last.value.Some? then [last] else [])
  }

  /**
   * The positions of the arguments that are present, in increasing order:
   * exactly the positions whose value is not `undefined`.
   */
  function PresentPositions(args: seq<UpdateArg>): (ps: seq<nat>)
    ensures forall i :: 0 <= i < |ps| ==> ps[i] < |args|
    ensures forall i, j :: 0 <= i < j < |ps| ==> ps[i] < ps[j]
    ensures forall p :: 0 <= p < |args| ==> (args[p].value.Some? <==> p in ps)
  {
    if args == [] then []
    else
      var init := args[..|args| - 1];
      assert forall p :: 0 <= p < |init| ==> init[p] == args[p];
      PresentPositions(init) + (if args[|args| - 1].value.Some? then [|args| - 1] else [])
  }

  /** `Present` keeps the arguments at exactly the present positions, in argument order. */
  lemma {:induction false} PresentInOrder(args: seq<UpdateArg>)
    ensures |Present(args)| == |PresentPositions(args)|
    ensures forall i :: 0 <= i < |Present(args)| ==> Present(args)[i] == args[PresentPositions(args)[i]]
  {
    if args != [] {
      var init, last := args[..|args| - 1], args[|args| - 1];
      PresentInOrder(init);
      var kept, ps := Present(init), PresentPositions(init);
      var tail := if last.value.Some? then [last] else [];
      var tailPs := if last.value.Some? then [|args| - 1] else [];
      assert args == init + [last];
      assert Present(args) == kept + tail;
      assert PresentPositions(args) == ps + tailPs;
      forall i | 0 <= i < |kept + tail| ensures (kept + tail)[i] == args[(ps + tailPs)[i]] {
        if i < |kept| {
          assert ps[i] < |init|;
          assert (kept + tail)[i] == kept[i] == init[ps[i]] == args[ps[i]];
        }
      }
    }
  }

  /** The present arguments of well-typed arguments with distinct keys can be applied. */
  lemma PresentApplicable(args: seq<UpdateArg>)
    requires PresentFit(args) && DistinctKeys(args)
    ensures Applicable(Present(args))
  {
    PresentInOrder(args);
    var r, ps := Present(args), PresentPositions(args);
    forall j | 0 <= j < |r| ensures Fits(r[j].key, r[j].value.value) {
      assert r[j] == args[ps[j]];
    }
    forall i, j | 0 <= i < j < |r| ensures r[i].key != r[j].key {
      assert r[i] == args[ps[i]] && r[j] == args[ps[j]] && ps[i] < ps[j];
    }
  }

  /** A column's value in a row, as a parameter value. */
  function ColumnValue(row: ShipmentRow, c: Column): Value {
    match c
    case CustomerIdColumn => Int(row.customerId)
    case OriginAddressColumn => Text(row.originAddress)
    case DestinationAddressColumn => Text(row.destinationAddress)
    case STypeColumn => Text(row.sType)
    case WeightColumn => Float(row.weight)
    case StatusColumn => Text(row.status)
    case VehicleIdColumn => if row.vehicleId.None? then Null else Text(row.vehicleId.value)
  }

  /** Stores `v` in column `c` of `row`. */
  function Assign(row: ShipmentRow, c: Column, v: Value): (r: ShipmentRow)
    requires Fits(c, v)
    ensures ColumnValue(r, c) == v
    ensures forall d :: d != c ==> ColumnValue(r, d) == ColumnValue(row, d)
    ensures r.shipmentId == row.shipmentId && r.createdAt == row.createdAt
  {
    match c
    case CustomerIdColumn => row.(customerId := v.n)
    case OriginAddressColumn => row.(originAddress := v.text)
    case DestinationAddressColumn => row.(destinationAddress := v.text)
    case STypeColumn => row.(sType := v.text)
    case WeightColumn => row.(weight := v.w)
    case StatusColumn => row.(status := v.text)
    case VehicleIdColumn => row.(vehicleId := if v.Null? then None else Some(v.text))
  }

  /**
   * The row after the present arguments are written to it: each mentioned
   * column holds its argument's value, every other column and the row's
   * identity and timestamp are as before.
   */
  function ApplyArgs(row: ShipmentRow, present: seq<UpdateArg>): (r: ShipmentRow)
    requires Applicable(present)
    ensures forall j :: 0 <= j < |present| ==> ColumnValue(r, present[j].key) == present[j].value.value
    ensures forall c :: !Mentions(present, c) ==> ColumnValue(r, c) == ColumnValue(row, c)
    ensures r.shipmentId == row.shipmentId && r.createdAt == row.createdAt
  {
    if present == [] then row
    else
      var init := present[..|present| - 1];
      var last := present[|present| - 1];
      var r := Assign(ApplyArgs(row, init), last.key, last.value.value);
      assert forall j :: 0 <= j < |init| ==> init[j] == present[j];
      assert present[|present| - 1] == last;
      r
  }

  /** A statement parameter `$k`, counting from 1. */
  function Bind(params: seq<Value>, k: nat): (r: Option<Value>)
    ensures r.Some? <==> 1 <= k <= |params|
    ensures r.Some? ==> r.value == params[k - 1]
  {
    if 1 <= k <= |params| then Some(params[k - 1]) else None
  }

  /** Runs a SET list against one row; `None` is a statement the database rejects. */
  function ApplySets(row: ShipmentRow, sets: seq<SetClause>, params: seq<Value>): Option<ShipmentRow> {
    if sets == [] then Some(row)
    else
      var last := sets[|sets| - 1];
      match ApplySets(row, sets[..|sets| - 1], params)
      case None => None
      case Some(r) =>
        match (ColumnNamed(last.column), Bind(params, last.param))
        case (Some(c), Some(v)) => if Fits(c, v) then Some(Assign(r, c, v)) else None
        case _ => None
  }

  /**
   * Runs an UPDATE with RETURNING: the new table and the updated row, or no
   * row when no shipment has the id; `None` when the database rejects it.
   */
  function ExecuteUpdate(table: map<nat, ShipmentRow>, st: UpdateStatement)
    : Option<(map<nat, ShipmentRow>, Option<ShipmentRow>)>
  {
    match Bind(st.params, st.whereParam)
    case None => None
    case Some(key) =>
      if !key.Int? then None
      else if key.n !in table then Some((table, None))
      else
        match ApplySets(table[key.n], st.sets, st.params)
        case None => None
        case Some(r) => Some((table[key.n := r], Some(r)))
  }

  /**
   * What the SET-list builder produces: one clause per present argument, in
   * order, named by its key, with placeholder `$j` for the j-th of them and the
   * j-th value its argument's value; the counter ends one past the last.
   */
  ghost predicate BuiltFrom(args: seq<UpdateArg>, fields: seq<SetClause>, values: seq<Value>, paramCount: nat) {
    var present := Present(args);
    && |fields| == |present| && |values| == |present|
    && paramCount == |present| + 1
    && forall j :: 0 <= j < |present| ==>
         fields[j] == SetClause(ColumnName(present[j].key), j + 1) && values[j] == present[j].value.value
  }

  /** The `forEach` over the argument keys in `updateShipment`. */
  method BuildSetClauses(args: seq<UpdateArg>) returns (fields: seq<SetClause>, values: seq<Value>, paramCount: nat)
    ensures BuiltFrom(args, fields, values, paramCount)
  {
    fields, values, paramCount := [], [], 1;
    for i := 0 to |args|
      invariant BuiltFrom(args[..i], fields, values, paramCount)
    {
      assert args[..i + 1][..i] == args[..i];
      if args[i].value.Some? {
        fields := fields + [SetClause(ColumnName(args[i].key), paramCount)];
        values := values + [args[i].value.value];
        paramCount := paramCount + 1;
      }
    }
    assert args[..|args|] == args;
  }

  /** The first `n` clauses bind the first `n` present arguments, so running them applies those arguments. */
  lemma {:induction false} ApplySetsPrefix(row: ShipmentRow, present: seq<UpdateArg>, fields: seq<SetClause>,
                                          params: seq<Value>, n: nat)
    requires Applicable(present)
    requires n <= |fields| == |present| <= |params|
    requires forall j :: 0 <= j < |present| ==>
      fields[j] == SetClause(ColumnName(present[j].key), j + 1) && params[j] == present[j].value.value
    ensures Applicable(present[..n])
    ensures ApplySets(row, fields[..n], params) == Some(ApplyArgs(row, present[..n]))
  {
    if n > 0 {
      ApplySetsPrefix(row, present, fields, params, n - 1);
      assert fields[..n][..n - 1] == fields[..n - 1];
      assert present[..n][..n - 1] == present[..n - 1];
    }
  }

  /**
   * Running the statement built by `BuildSetClauses`, with the shipment id
   * bound after the values, writes exactly the present arguments into the
   * row with that id and touches no other row; with no such row nothing changes.
   */
  lemma BuiltStatementApplies(table: map<nat, ShipmentRow>, id: nat, args: seq<UpdateArg>,
                              fields: seq<SetClause>, values: seq<Value>, paramCount: nat)
    requires BuiltFrom(args, fields, values, paramCount)
    requires PresentFit(args) && DistinctKeys(args)
    ensures Applicable(Present(args))
    ensures ExecuteUpdate(table, UpdateStatement(fields, paramCount, values + [Int(id)])) ==
      if id in table then
        var r := ApplyArgs(table[id], Present(args));
        Some((table[id := r], Some(r)))
      else Some((table, None))
  {
    PresentApplicable(args);
    var present := Present(args);
    var params := values + [Int(id)];
    assert Bind(params, paramCount) == Some(Int(id));
    if id in table {
      ApplySetsPrefix(table[id], present, fields, params, |fields|);
      assert fields[..|fields|] == fields;
      assert present[..|fields|] == present;
    }
  }
}
