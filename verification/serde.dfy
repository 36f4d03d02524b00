/** The part of serde's `#[derive(Serialize)]` the records rely on: fields are
    written in declaration order, a field marked `#[serde(skip_serializing)]` is
    not written, and `#[serde(rename_all = "camelCase")]` renames every key. */
module Serde {
  import opened JsonValue

  datatype RenameRule = AsDeclared | CamelCase

  /** A struct field as declared: its Rust name, and whether it is marked `skip_serializing`. */
  datatype FieldDecl = FieldDecl(name: string, skip: bool)

  function AsciiUpper(c: char): char
  {
    if 'a' <= c <= 'z' then (c as int - 32) as char else c
  }

  function AsciiLower(c: char): char
  {
    if 'A' <= c <= 'Z' then (c as int + 32) as char else c
  }

  /** serde's PascalCase rule: every `_` is dropped and the character after it is
      upper-cased, and so is the first character when `capitalize` holds. */
  function Pascal(s: string, capitalize: bool): string
  {
    if |s| == 0 then ""
    else if s[0] == '_' then Pascal(s[1..], true)
    else if capitalize then [AsciiUpper(s[0])] + Pascal(s[1..], false)
    else [s[0]] + Pascal(s[1..], false)
  }

  /** serde's camelCase rule: the PascalCase form with its first character lower-cased. */
  function Camel(s: string): string
  {
    var p := Pascal(s, true);
    if |p| == 0 then p else [AsciiLower(p[0])] + p[1..]
  }

  /** The key a field named `name` is written under. */
  function FieldKey(rule: RenameRule, name: string): string
  {
    match rule
    case AsDeclared => name
    case CamelCase => Camel(name)
  }

  /** The members written for a struct whose fields `decls` hold `values`. */
  function DeriveMembers(rule: RenameRule, decls: seq<FieldDecl>, values: seq<Json>): (ms: seq<Member>)
    requires |decls| == |values|
    ensures |ms| <= |decls|
  {
    if |decls| == 0 then []
    else
      (if decls[0].skip then [] else [Member(FieldKey(rule, decls[0].name), values[0])])
      + DeriveMembers(rule, decls[1..], values[1..])
  }

  /** The members written for one field: none when it is skipped. */
  function Written(rule: RenameRule, d: FieldDecl, v: Json): seq<Member>
  {
    if d.skip then [] else [Member(FieldKey(rule, d.name), v)]
  }

  /** One field at a time: the first field's member, if it is written, comes first. */
  lemma DeriveMembersCons(rule: RenameRule, d: FieldDecl, decls: seq<FieldDecl>, v: Json, values: seq<Json>)
    requires |decls| == |values|
    ensures DeriveMembers(rule, [d] + decls, [v] + values) == Written(rule, d, v) + DeriveMembers(rule, decls, values)
  {
    assert ([d] + decls)[1..] == decls;
    assert ([v] + values)[1..] == values;
  }

  lemma DeriveMembers2(rule: RenameRule, d0: FieldDecl, d1: FieldDecl, v0: Json, v1: Json)
    ensures DeriveMembers(rule, [d0, d1], [v0, v1]) == Written(rule, d0, v0) + Written(rule, d1, v1)
  {
    DeriveMembersCons(rule, d1, [], v1, []);
    assert [d1] + [] == [d1] && [v1] + [] == [v1];
    DeriveMembersCons(rule, d0, [d1], v0, [v1]);
    assert [d0] + [d1] == [d0, d1] && [v0] + [v1] == [v0, v1];
  }

  lemma DeriveMembers3(rule: RenameRule, d0: FieldDecl, d1: FieldDecl, d2: FieldDecl, v0: Json, v1: Json, v2: Json)
    ensures DeriveMembers(rule, [d0, d1, d2], [v0, v1, v2])
         == Written(rule, d0, v0) + (Written(rule, d1, v1) + Written(rule, d2, v2))
  {
    DeriveMembers2(rule, d1, d2, v1, v2);
    DeriveMembersCons(rule, d0, [d1, d2], v0, [v1, v2]);
    assert [d0] + [d1, d2] == [d0, d1, d2] && [v0] + [v1, v2] == [v0, v1, v2];
  }

  lemma DeriveMembers4(rule: RenameRule, d0: FieldDecl, d1: FieldDecl, d2: FieldDecl, d3: FieldDecl,
                       v0: Json, v1: Json, v2: Json, v3: Json)
    ensures DeriveMembers(rule, [d0, d1, d2, d3], [v0, v1, v2, v3])
         == Written(rule, d0, v0) + (Written(rule, d1, v1) + (Written(rule, d2, v2) + Written(rule, d3, v3)))
  {
    DeriveMembers3(rule, d1, d2, d3, v1, v2, v3);
    DeriveMembersCons(rule, d0, [d1, d2, d3], v0, [v1, v2, v3]);
    assert [d0] + [d1, d2, d3] == [d0, d1, d2, d3] && [v0] + [v1, v2, v3] == [v0, v1, v2, v3];
  }

  lemma DeriveMembers5(rule: RenameRule, d0: FieldDecl, d1: FieldDecl, d2: FieldDecl, d3: FieldDecl, d4: FieldDecl,
                       v0: Json, v1: Json, v2: Json, v3: Json, v4: Json)
    ensures DeriveMembers(rule, [d0, d1, d2, d3, d4], [v0, v1, v2, v3, v4])
         == Written(rule, d0, v0) + (Written(rule, d1, v1) + (Written(rule, d2, v2) + (Written(rule, d3, v3)
            + Written(rule, d4, v4))))
  {
    DeriveMembers4(rule, d1, d2, d3, d4, v1, v2, v3, v4);
    DeriveMembersCons(rule, d0, [d1, d2, d3, d4], v0, [v1, v2, v3, v4]);
    assert [d0] + [d1, d2, d3, d4] == [d0, d1, d2, d3, d4] && [v0] + [v1, v2, v3, v4] == [v0, v1, v2, v3, v4];
  }

  lemma DeriveMembers6(rule: RenameRule, d0: FieldDecl, d1: FieldDecl, d2: FieldDecl, d3: FieldDecl, d4: FieldDecl,
                       d5: FieldDecl, v0: Json, v1: Json, v2: Json, v3: Json, v4: Json, v5: Json)
    ensures DeriveMembers(rule, [d0, d1, d2, d3, d4, d5], [v0, v1, v2, v3, v4, v5])
         == Written(rule, d0, v0) + (Written(rule, d1, v1) + (Written(rule, d2, v2) + (Written(rule, d3, v3)
            + (Written(rule, d4, v4) + Written(rule, d5, v5)))))
  {
    DeriveMembers5(rule, d1, d2, d3, d4, d5, v1, v2, v3, v4, v5);
    DeriveMembersCons(rule, d0, [d1, d2, d3, d4, d5], v0, [v1, v2, v3, v4, v5]);
    assert [d0] + [d1, d2, d3, d4, d5] == [d0, d1, d2, d3, d4, d5];
    assert [v0] + [v1, v2, v3, v4, v5] == [v0, v1, v2, v3, v4, v5];
  }

  /** The object `#[derive(Serialize)]` writes for a struct whose fields `decls` hold `values`. */
  function DeriveObject(rule: RenameRule, decls: seq<FieldDecl>, values: seq<Json>): Json
    requires |decls| == |values|
  {
    JObj(DeriveMembers(rule, decls, values))
  }

  /** What a skipped field holds never reaches the written object. */
  lemma {:induction false} DeriveIgnoresSkipped(rule: RenameRule, decls: seq<FieldDecl>, values: seq<Json>, values': seq<Json>)
    requires |decls| == |values| == |values'|
    requires forall i :: 0 <= i < |decls| && !decls[i].skip ==> values[i] == values'[i]
    ensures DeriveObject(rule, decls, values) == DeriveObject(rule, decls, values')
  {
    if |decls| > 0 {
      DeriveIgnoresSkipped(rule, decls[1..], values[1..], values'[1..]);
    }
  }

  lemma {:induction false} PascalOfPlain(s: string)
    requires '_' !in s
    ensures Pascal(s, false) == s
  {
    if |s| > 0 {
      assert s[1..] <= s[1..] && forall c :: c in s[1..] ==> c in s;
      PascalOfPlain(s[1..]);
    }
  }

  lemma {:induction false} PascalSplit(a: string, b: string, capitalize: bool)
    requires |a| > 0 && '_' !in a
    ensures Pascal(a + "_" + b, capitalize) == Pascal(a, capitalize) + Pascal(b, true)
  {
    var s := a + "_" + b;
    assert s[0] == a[0];
    if |a| == 1 {
      assert s[1..] == "_" + b;
      assert s[1..][1..] == b;
      assert a[1..] == "";
    } else {
      assert s[1..] == a[1..] + "_" + b;
      assert forall c :: c in a[1..] ==> c in a;
      PascalSplit(a[1..], b, false);
    }
  }

  lemma PascalCapitalizedPlain(s: string)
    requires |s| > 0 && '_' !in s
    ensures Pascal(s, true) == [AsciiUpper(s[0])] + s[1..]
  {
    assert forall c :: c in s[1..] ==> c in s;
    PascalOfPlain(s[1..]);
  }

  /** A name without `_` whose first character is not an upper-case letter keeps its spelling. */
  lemma CamelOfPlain(a: string)
    requires |a| > 0 && '_' !in a && !('A' <= a[0] <= 'Z')
    ensures Camel(a) == a
  {
    PascalCapitalizedPlain(a);
    assert a == [a[0]] + a[1..];
  }

  /** `a_b` becomes `aB`: the underscore is dropped and the character after it upper-cased. */
  lemma SnakeToCamel(a: string, b: string)
    requires |a| > 0 && '_' !in a && !('A' <= a[0] <= 'Z')
    requires |b| > 0 && '_' !in b
    ensures Camel(a + "_" + b) == a + [AsciiUpper(b[0])] + b[1..]
  {
    var q := Pascal(a + "_" + b, true);
    assert q == [AsciiUpper(a[0])] + a[1..] + ([AsciiUpper(b[0])] + b[1..]) by {
      PascalSplit(a, b, true);
      PascalCapitalizedPlain(a);
      PascalCapitalizedPlain(b);
    }
    assert AsciiLower(AsciiUpper(a[0])) == a[0];
    assert Camel(a + "_" + b) == [AsciiLower(q[0])] + q[1..];
    assert q[1..] == a[1..] + [AsciiUpper(b[0])] + b[1..];
    assert a == [a[0]] + a[1..];
  }
}
