// JSON trees and their compact text, as serde_json prints them: a number keeps its text,
// an object keeps its members in key order.
module JsonTree {
  import opened JsonText
  import opened JsonString
  import opened OrderedMap

  datatype Json =
    | Null
    | Bool(b: bool)
    | Number(text: string)
    | String(s: string)
    | Array(items: seq<Json>)
    | Object(members: seq<(string, Json)>)

  // json::Limits
  datatype Limits = Limits(maxBytes: nat, maxDepth: nat, maxNodes: nat, rejectDuplicateKeys: bool)

  function PrintString(s: string): string { Quoted(Escape(s)) }

  function Print(j: Json): (r: string)
    decreases j, 1
  {
    match j
    case Null => "null"
    case Bool(b) => if b then "true" else "false"
    case Number(text) => text
    case String(s) => PrintString(s)
    case Array(items) => "[" + PrintItems(items)
    case Object(members) => "{" + PrintMembers(members)
  }

  // The rest of an array after its bracket, or after a comma.
  function PrintItems(items: seq<Json>): string
    decreases items, 0
  {
    if items == [] then "]"
    else Print(items[0]) + (if |items| == 1 then "]" else "," + PrintItems(items[1..]))
  }

  function PrintMember(m: (string, Json)): string
    decreases m, 0
  {
    PrintString(m.0) + (":" + Print(m.1))
  }

  function PrintMembers(members: seq<(string, Json)>): string
    decreases members, 0
  {
    if members == [] then "}"
    else
      PrintMember(members[0]) + (if |members| == 1 then "}" else "," + PrintMembers(members[1..]))
  }

  // Every number is one of RFC 8259 and every object has distinct keys, in order.
  ghost predicate Printable(j: Json)
    decreases j
  {
    match j
    case Number(text) => IsNumber(text)
    case Array(items) => forall i :: 0 <= i < |items| ==> Printable(items[i])
    case Object(members) => Sorted(members) && forall i :: 0 <= i < |members| ==> Printable(members[i].1)
    case _ => true
  }
}
