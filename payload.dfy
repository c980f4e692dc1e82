/**
 * The API's response body as Python's `json` module hands it to comp_data.py, together with the
 * two Python operations the code applies to such values: the truth test of `if not x` and the
 * subscript/membership of `x[key]` and `key in x` with a string key.
 */
module Payload {
  import opened Wrappers
  import opened Strings

  datatype Json =
    | JNull
    | JBool(b: bool)
    | JInt(i: int)
    | JFloat(f: real)
    | JStr(s: string)
    | JArr(items: seq<Json>)
    | JObj(fields: map<string, Json>)

  /** Python truth value: `None`, `False`, zero, and empty strings, lists and dicts are false. */
  predicate Truthy(v: Json) {
    match v
    case JNull => false
    case JBool(b) => b
    case JInt(i) => i != 0
    case JFloat(f) => f != 0.0
    case JStr(s) => s != ""
    case JArr(items) => items != []
    case JObj(fields) => fields != map[]
  }

  /** Python truth value of a result that may be `None`. */
  predicate TruthyOpt(o: Option<Json>) {
    o.Some? && Truthy(o.value)
  }

  /**
   * The falsy values are exactly `None`, `False`, `0`, `0.0`, `''`, `[]` and `{}`; a missing
   * result counts as `None`.
   */
  lemma FalsyValues(v: Json, o: Option<Json>)
    ensures !Truthy(v) <==> v in {JNull, JBool(false), JInt(0), JFloat(0.0), JStr(""), JArr([]), JObj(map[])}
    ensures !TruthyOpt(o) <==> o.None? || !Truthy(o.value)
  {
  }

  /** Outcome of Python `v[key]` with a string key. */
  datatype Subscript = Value(v: Json) | KeyError | TypeError

  /** Python `v[key]`: a dict gives the value or raises `KeyError`; any other value raises `TypeError`. */
  function Index(v: Json, key: string): Subscript {
    match v
    case JObj(fields) => if key in fields then Value(fields[key]) else KeyError
    case _ => TypeError
  }

  /** Outcome of Python `key in v` with a string key. */
  datatype Membership = In | NotIn | NotIterable

  /**
   * Python `key in v`: key membership for a dict, substring test for a string, element equality
   * for a list; numbers, booleans and `None` raise `TypeError`.
   */
  function Member(key: string, v: Json): Membership {
    match v
    case JObj(fields) => if key in fields then In else NotIn
    case JStr(s) => if Contains(s, key) then In else NotIn
    case JArr(items) => if JStr(key) in items then In else NotIn
    case _ => NotIterable
  }

  /**
   * `v[key]` and `key in v` agree on dicts: the subscript raises `KeyError` exactly when the key
   * is not in the dict. On a string or a list the membership test answers while the subscript
   * raises `TypeError`, and on a scalar both raise.
   */
  lemma SubscriptMembership(v: Json, key: string)
    ensures Index(v, key).Value? <==> v.JObj? && Member(key, v) == In
    ensures Index(v, key).KeyError? <==> v.JObj? && Member(key, v) == NotIn
    ensures Index(v, key).TypeError? <==> !v.JObj?
    ensures Member(key, v) == NotIterable <==> !(v.JObj? || v.JStr? || v.JArr?)
    ensures Index(v, key).Value? ==> Index(v, key).v == v.fields[key]
  {
  }
}
