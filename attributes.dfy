/**
 * The untyped values the Terraform SDK exchanges with a provider: Go's
 * interface{} holding an int, a string, a []interface{} or a
 * map[string]interface{}. A key missing from a map stands for Go's nil.
 */
module Attributes {

  datatype Attr =
    | AInt(i: int)
    | AStr(s: string)
    | AList(elems: seq<Attr>)
    | AMap(fields: map<string, Attr>)

  /** The map holds key k with an integer under it. */
  predicate HasInt(fields: map<string, Attr>, k: string) {
    k in fields && fields[k].AInt?
  }

  /** The map either lacks key k or holds a string under it. */
  predicate OptStr(fields: map<string, Attr>, k: string) {
    k in fields ==> fields[k].AStr?
  }

  /** The map either lacks key k or holds an integer under it. */
  predicate OptInt(fields: map<string, Attr>, k: string) {
    k in fields ==> fields[k].AInt?
  }

  /** The string under key k, or Go's zero value "" when the key is absent. */
  function StrAt(fields: map<string, Attr>, k: string): string
    requires OptStr(fields, k)
  {
    if k in fields then fields[k].s else ""
  }

  /** The integer under key k, or Go's zero value 0 when the key is absent. */
  function IntAt(fields: map<string, Attr>, k: string): int
    requires OptInt(fields, k)
  {
    if k in fields then fields[k].i else 0
  }
}
