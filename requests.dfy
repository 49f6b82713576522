/**
 The operation descriptors a request handler returns to its data source. The
 helpers `get`, `put`, `remove` and `scan` of the resolver library, and the
 object literals for Query and Invoke, are the constructors of `Operation`.
 Keys, items and expression values are kept as JavaScript values: their
 encoding into DynamoDB attribute values is not part of this model.
 */
module Requests {
  import opened Js
  import opened AppSync

  /** Condition and filter objects: `{ a: { attributeExists: e } }`,
      `{ a: { contains: v } }` and `{ and: [...] }`. */
  datatype Predicate =
    | AttributeExists(attribute: string, present: bool)
    | Contains(attribute: string, operand: Value)
    | And(conjuncts: seq<Predicate>)

  /** `query: { expression, expressionNames, expressionValues }` */
  datatype KeyCondition = KeyCondition(expression: string, names: map<string, string>, values: map<string, Value>)

  datatype Operation =
    | GetItem(key: map<string, Value>)
    | PutItem(key: map<string, Value>, item: Value, condition: Option<Predicate>)
    | DeleteItem(key: map<string, Value>, condition: Option<Predicate>)
    | Query(query: KeyCondition, index: string, limit: Value, nextToken: Value,
            scanIndexForward: bool, select: string)
    | Scan(limit: Value, filter: Option<Predicate>, nextToken: Value)
    | Invoke(payload: Value)

  /** What a request handler produces: a descriptor, or the fault it threw. */
  datatype Built = Ok(op: Operation) | Threw(fault: Fault)

  /** The characters DynamoDB allows in a placeholder after its `#` or `:`. */
  predicate IsNameChar(c: char) {
    ('a' <= c <= 'z') || ('A' <= c <= 'Z') || ('0' <= c <= '9') || c == '_'
  }

  /** The length of the longest prefix of `s` made of name characters. */
  function NameRun(s: string): (n: nat)
    ensures n <= |s|
    ensures forall i :: 0 <= i < n ==> IsNameChar(s[i])
    ensures n < |s| ==> !IsNameChar(s[n])
  {
    if |s| > 0 && IsNameChar(s[0]) then 1 + NameRun(s[1..]) else 0
  }

  /**
   The placeholders of an expression that start with `sigil`: `#name` for
   attribute names, `:name` for attribute values.
   */
  function Placeholders(expr: string, sigil: char): (ps: set<string>)
    ensures forall p :: p in ps ==> |p| >= 1 && p[0] == sigil
    ensures sigil !in expr ==> ps == {}
    decreases |expr|
  {
    if |expr| == 0 then {}
    else if expr[0] == sigil then
      var n := NameRun(expr[1..]);
      {[sigil] + expr[1..1 + n]} + Placeholders(expr[1 + n..], sigil)
    else Placeholders(expr[1..], sigil)
  }

  /** A run of name characters ends at the first character that is not one. */
  lemma {:induction false} NameRunOf(name: string, rest: string)
    requires forall i :: 0 <= i < |name| ==> IsNameChar(name[i])
    requires |rest| == 0 || !IsNameChar(rest[0])
    ensures NameRun(name + rest) == |name|
  {
    if |name| > 0 {
      assert (name + rest)[1..] == name[1..] + rest;
      NameRunOf(name[1..], rest);
    } else {
      assert name + rest == rest;
    }
  }

  /** Text without the sigil contributes no placeholder. */
  lemma {:induction false} PlaceholdersSkipPrefix(prefix: string, expr: string, sigil: char)
    requires sigil !in prefix
    ensures Placeholders(prefix + expr, sigil) == Placeholders(expr, sigil)
  {
    if |prefix| > 0 {
      assert (prefix + expr)[0] == prefix[0];
      assert (prefix + expr)[1..] == prefix[1..] + expr;
      PlaceholdersSkipPrefix(prefix[1..], expr, sigil);
    } else {
      assert prefix + expr == expr;
    }
  }

  /** A sigil followed by a run of name characters is one placeholder. */
  lemma PlaceholdersTake(sigil: char, name: string, rest: string)
    requires forall i :: 0 <= i < |name| ==> IsNameChar(name[i])
    requires |rest| == 0 || !IsNameChar(rest[0])
    ensures Placeholders([sigil] + name + rest, sigil) == {[sigil] + name} + Placeholders(rest, sigil)
  {
    var expr := [sigil] + name + rest;
    assert expr[1..] == name + rest;
    NameRunOf(name, rest);
    assert expr[1..1 + |name|] == name;
    assert expr[1 + |name|..] == rest;
  }

  /**
   DynamoDB accepts a key condition only when every placeholder its expression
   uses is bound and every binding is used.
   */
  predicate WellFormed(kc: KeyCondition) {
    Placeholders(kc.expression, '#') == kc.names.Keys
    && Placeholders(kc.expression, ':') == kc.values.Keys
  }
}
