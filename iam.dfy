/**
 * IAM policy vocabulary: statements, principals, conditions, and the JSON
 * text of policy documents that the constructs hydrate with `replaceAll`.
 */
module Iam {
  import opened Text
  import opened Tokens

  datatype Effect = Allow | Deny

  datatype Principal =
    | RolePrincipal(role: Handle)
    | AccountRootPrincipal
    | ServicePrincipal(service: string)

  /** One condition block entry `{ operator: { key: values } }`; a boolean
      value `true` is written as the single value "true". */
  datatype Condition = Condition(operator: string, key: string, values: seq<string>)

  datatype Statement = Statement(
    effect: Effect,
    actions: seq<string>,
    resources: seq<Token>,
    conditions: seq<Condition>,
    principals: seq<Principal>)

  /** A policy document as the text `JSON.stringify` gives it: the text of
      the document around its `Statement` array, and the text of each statement. */
  datatype PolicyJson = PolicyJson(header: string, statements: seq<string>)

  /** `replaceAll(pat, rep)` applied to every string of a list. */
  function ReplaceEach(ss: seq<string>, pat: string, rep: string): (r: seq<string>)
    requires DollarFree(rep)
    ensures |r| == |ss|
    decreases |ss|
  {
    if ss == [] then [] else [ReplaceAll(ss[0], pat, rep)] + ReplaceEach(ss[1..], pat, rep)
  }

  /** `JSON.parse(JSON.stringify(doc).replaceAll(pat, rep))`. */
  function Hydrate(doc: PolicyJson, pat: string, rep: string): PolicyJson
    requires DollarFree(rep)
  {
    PolicyJson(ReplaceAll(doc.header, pat, rep), ReplaceEach(doc.statements, pat, rep))
  }

  /** No part of the document contains `pat`. */
  predicate Free(doc: PolicyJson, pat: string) {
    !Contains(doc.header, pat) && forall i :: 0 <= i < |doc.statements| ==> !Contains(doc.statements[i], pat)
  }

  lemma {:induction false} ReplaceEachAt(ss: seq<string>, pat: string, rep: string, i: nat)
    requires DollarFree(rep) && i < |ss|
    ensures ReplaceEach(ss, pat, rep)[i] == ReplaceAll(ss[i], pat, rep)
    decreases |ss|
  {
    if i > 0 {
      ReplaceEachAt(ss[1..], pat, rep, i - 1);
    }
  }

  /** Hydrating works statement by statement: statements appended to a
      document come out hydrated after the hydrated original ones. */
  lemma {:induction false} ReplaceEachAppend(a: seq<string>, b: seq<string>, pat: string, rep: string)
    requires DollarFree(rep)
    ensures ReplaceEach(a + b, pat, rep) == ReplaceEach(a, pat, rep) + ReplaceEach(b, pat, rep)
    decreases |a|
  {
    if a == [] {
      assert a + b == b;
    } else {
      assert (a + b)[1..] == a[1..] + b;
      ReplaceEachAppend(a[1..], b, pat, rep);
    }
  }

  /** Hydrating a document that has no placeholder `pat` leaves it unchanged. */
  lemma HydrateFree(doc: PolicyJson, pat: string, rep: string)
    requires DollarFree(rep) && pat != [] && Free(doc, pat)
    ensures Hydrate(doc, pat, rep) == doc
  {
    ReplaceAllAbsent(doc.header, pat, rep);
    forall i | 0 <= i < |doc.statements|
      ensures ReplaceEach(doc.statements, pat, rep)[i] == doc.statements[i]
    {
      ReplaceEachAt(doc.statements, pat, rep, i);
      ReplaceAllAbsent(doc.statements[i], pat, rep);
    }
  }

  /** IAM's `StringLike` match: `*` matches any run of characters, `?` any one. */
  predicate Like(s: string, p: string)
    decreases |p| + |s|
  {
    if p == [] then s == []
    else if p[0] == '*' then Like(s, p[1..]) || (s != [] && Like(s[1..], p))
    else s != [] && (p[0] == '?' || p[0] == s[0]) && Like(s[1..], p[1..])
  }

  /** A pattern without wildcards matches itself. */
  lemma {:induction false} LikeItself(s: string)
    requires '*' !in s && '?' !in s
    ensures Like(s, s)
    decreases |s|
  {
    if s != [] {
      assert s[0] in s;
      assert forall c :: c in s[1..] ==> c in s;
      LikeItself(s[1..]);
    }
  }

  /** A lone `*` matches everything. */
  lemma {:induction false} LikeStar(s: string)
    ensures Like(s, "*")
    decreases |s|
  {
    if s != [] {
      LikeStar(s[1..]);
    } else {
      assert "*"[1..] == [];
    }
  }

  /** `ForAllValues:StringNotLike`: every requested value matches none of the patterns. */
  predicate ForAllValuesStringNotLike(requested: seq<string>, patterns: seq<string>) {
    forall i, j :: 0 <= i < |requested| && 0 <= j < |patterns| ==> !Like(requested[i], patterns[j])
  }

  /** Whether `st` denies `action` on a request whose context key `key` holds
      `requested`; only the `ForAllValues:StringNotLike` operator is modelled,
      and a condition on any other operator or key is treated as unmet. */
  predicate DeniesRequest(st: Statement, action: string, key: string, requested: seq<string>) {
    st.effect == Deny && action in st.actions &&
    forall c :: c in st.conditions ==>
      c.operator == "ForAllValues:StringNotLike" && c.key == key && ForAllValuesStringNotLike(requested, c.values)
  }
}
