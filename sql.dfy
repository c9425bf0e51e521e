/**
 * The few SQL behaviours the handlers depend on: `COALESCE`, a positional `SET` list
 * filled from a `params` array, `WHERE id = ?` updates and deletes, and the driver's
 * refusal to bind `undefined`.
 */
module Sql {
  import opened Wrappers
  import opened Js

  /** `COALESCE(p, current)`. */
  function SqlCoalesce(p: JsVal, current: JsVal): JsVal {
    if p == Null then current else p
  }

  /** `COALESCE(input ?? null, col)`: keep the column only when the input is null or undefined. */
  function KeepIfNullish(input: JsVal, current: JsVal): (r: JsVal)
    ensures IsNullish(input) ==> r == current
    ensures !IsNullish(input) ==> r == input
  {
    SqlCoalesce(Coalesce(input, Null), current)
  }

  /** `COALESCE(input || null, col)`: keep the column whenever the input is falsy. */
  function KeepIfFalsy(input: JsVal, current: JsVal): (r: JsVal)
    ensures !Truthy(input) ==> r == current
    ensures Truthy(input) ==> r == input
  {
    SqlCoalesce(Or(input, Null), current)
  }

  /** An empty string overwrites under the `??` merge and is ignored under the `||` merge. */
  lemma EmptyStringMerges(current: JsVal)
    ensures KeepIfNullish(Str(""), current) == Str("")
    ensures KeepIfFalsy(Str(""), current) == current
  {
  }

  /** mysql2's `execute` throws on an `undefined` bind parameter (the handler then answers 500). */
  predicate BindsDefined(params: seq<JsVal>) {
    Undefined !in params
  }

  /** One entry of an `UPDATE ... SET` list: `col = COALESCE(?, col)` or `col = ?`. */
  datatype Assign<C> = CoalesceInto(col: C) | SetTo(col: C)

  /** Apply a SET list to a row, taking the placeholders' values from `params` in order. */
  function ExecSets<R, C>(row: R, sets: seq<Assign<C>>, params: seq<JsVal>,
                          get: (R, C) -> JsVal, put: (R, C, JsVal) -> R): R
    requires |params| >= |sets|
    decreases |sets|
  {
    if sets == [] then row
    else ExecSets(put(row, sets[0].col, AssignedValue(sets[0], params[0], get(row, sets[0].col))),
                  sets[1..], params[1..], get, put)
  }

  /** Running a SET list from entry `i` on is running entry `i`, then the rest. */
  lemma ExecSetsStep<R, C>(row: R, sets: seq<Assign<C>>, params: seq<JsVal>, i: nat,
                           get: (R, C) -> JsVal, put: (R, C, JsVal) -> R, next: R)
    requires i < |sets| && |params| >= |sets|
    requires next == put(row, sets[i].col, AssignedValue(sets[i], params[i], get(row, sets[i].col)))
    ensures ExecSets(row, sets[i..], params[i..], get, put) == ExecSets(next, sets[i + 1..], params[i + 1..], get, put)
  {
    assert sets[i..][1..] == sets[i + 1..] && params[i..][1..] == params[i + 1..];
  }

  /** The value one SET entry gives its column, from its placeholder's value and the current value. */
  function AssignedValue<C>(a: Assign<C>, param: JsVal, current: JsVal): JsVal {
    match a
    case CoalesceInto(_) => SqlCoalesce(param, current)
    case SetTo(_) => param
  }

  /** `UPDATE t SET ... WHERE id = ?`: only the selected row changes. */
  function UpdateWhereId<R>(rows: map<nat, R>, id: JsVal, f: R -> R): (r: map<nat, R>)
    ensures r.Keys == rows.Keys
    ensures forall k :: k in rows ==> r[k] == if AsId(id) == Some(k) then f(rows[k]) else rows[k]
  {
    map k | k in rows :: if AsId(id) == Some(k) then f(rows[k]) else rows[k]
  }

  /** `DELETE FROM t WHERE id = ?`: only the selected row goes. */
  function DeleteWhereId<R>(rows: map<nat, R>, id: JsVal): (r: map<nat, R>)
    ensures r.Keys == rows.Keys - (set k | k in rows && AsId(id) == Some(k))
    ensures forall k :: k in r ==> r[k] == rows[k]
  {
    if AsId(id).Some? then rows - {AsId(id).value} else rows
  }
}
