/**
 * The validation schemas of the VolcEngine and BytePlus credential forms
 * (ui/src/components/access/AccessEditFormVolcEngineConfig.tsx and
 * ui/src/components/access/AccessEditFormBytePlusConfig.tsx). Each form is a zod
 * object schema with two properties, each `z.string().trim().min(1).max(64)`: the
 * value must be a string; it is trimmed as by `String.prototype.trim`; the trimmed
 * value must then be between 1 and 64 UTF-16 code units long. zod's parse output is
 * the object of trimmed strings, with keys the schema does not name stripped. The
 * forms use the schema only as a validation rule: what they hand on is the raw
 * field values, untrimmed.
 */
module CredentialForms {
  import opened Wrappers
  import opened Values
  import Access

  // ---------------------------------------------------------------------------
  // Trimming

  /** The ECMAScript WhiteSpace and LineTerminator code points, which `trim` removes. */
  predicate IsWhitespace(c: char) {
    var u := c as int;
    || u == 0x09 || u == 0x0B || u == 0x0C || u == 0x20 || u == 0xA0 || u == 0xFEFF
    || u == 0x1680 || (0x2000 <= u <= 0x200A) || u == 0x202F || u == 0x205F || u == 0x3000
    || u == 0x0A || u == 0x0D || u == 0x2028 || u == 0x2029
  }

  predicate AllWhitespace(s: string) {
    forall i :: 0 <= i < |s| ==> IsWhitespace(s[i])
  }

  /** s neither starts nor ends with whitespace. */
  predicate Unpadded(s: string) {
    s == [] || (!IsWhitespace(s[0]) && !IsWhitespace(s[|s| - 1]))
  }

  /** s without its leading whitespace. */
  function TrimStart(s: string): (r: string)
    ensures |r| <= |s| && r == s[|s| - |r|..]
    ensures AllWhitespace(s[..|s| - |r|])
    ensures r == [] || !IsWhitespace(r[0])
    decreases |s|
  {
    if s != [] && IsWhitespace(s[0]) then
      var r := TrimStart(s[1..]);
      assert s[..|s| - |r|] == [s[0]] + s[1..][..|s| - 1 - |r|];
      r
    else s
  }

  /** s without its trailing whitespace. */
  function TrimEnd(s: string): (r: string)
    ensures r <= s
    ensures AllWhitespace(s[|r|..])
    ensures r == [] || !IsWhitespace(r[|r| - 1])
    decreases |s|
  {
    if s != [] && IsWhitespace(s[|s| - 1]) then
      var r := TrimEnd(s[..|s| - 1]);
      assert s[|r|..] == s[..|s| - 1][|r|..] + [s[|s| - 1]];
      r
    else s
  }

  /** `String.prototype.trim`. */
  function Trim(s: string): (r: string)
    ensures Unpadded(r)
  {
    TrimEnd(TrimStart(s))
  }

  /** Whitespace runs concatenate to a whitespace run. */
  lemma AllWhitespaceConcat(a: string, b: string)
    requires AllWhitespace(a) && AllWhitespace(b)
    ensures AllWhitespace(a + b)
  {
    forall i | 0 <= i < |a + b| ensures IsWhitespace((a + b)[i]) {
      if i < |a| { assert (a + b)[i] == a[i]; } else { assert (a + b)[i] == b[i - |a|]; }
    }
  }

  /** The whitespace run trimming removes from the start of s. */
  function Leading(s: string): string {
    s[..|s| - |TrimStart(s)|]
  }

  /** The whitespace run trimming removes from the end of s. */
  function Trailing(s: string): string {
    TrimStart(s)[|Trim(s)|..]
  }

  lemma Regroup(s: string, p: string, t: string, m: string, q: string)
    requires s == p + t && t == m + q
    ensures s == p + m + q
  {
  }

  lemma Rewrap(pre: string, s: string, post: string, p: string, m: string, q: string)
    requires s == p + m + q
    ensures pre + s + post == (pre + p) + m + (q + post)
  {
  }

  lemma LeadingSplits(s: string)
    ensures s == Leading(s) + TrimStart(s)
  {
  }

  lemma TrailingSplits(s: string)
    ensures TrimStart(s) == Trim(s) + Trailing(s)
  {
  }

  /** Trimming drops a leading and a trailing whitespace run and keeps the rest in between. */
  lemma TrimSplits(s: string)
    ensures AllWhitespace(Leading(s)) && AllWhitespace(Trailing(s))
    ensures s == Leading(s) + Trim(s) + Trailing(s)
  {
    LeadingSplits(s);
    TrailingSplits(s);
    Regroup(s, Leading(s), TrimStart(s), Trim(s), Trailing(s));
  }

  lemma {:induction false} TrimStartOfPadded(p: string, t: string)
    requires AllWhitespace(p) && (t == [] || !IsWhitespace(t[0]))
    ensures TrimStart(p + t) == t
    decreases |p|
  {
    if p != [] {
      assert (p + t)[1..] == p[1..] + t;
      TrimStartOfPadded(p[1..], t);
    }
  }

  lemma {:induction false} TrimEndOfPadded(t: string, q: string)
    requires AllWhitespace(q) && (t == [] || !IsWhitespace(t[|t| - 1]))
    ensures TrimEnd(t + q) == t
    decreases |q|
  {
    if q != [] {
      assert (t + q)[..|t + q| - 1] == t + q[..|q| - 1];
      TrimEndOfPadded(t, q[..|q| - 1]);
    }
  }

  /** Trimming a string padded with whitespace on both sides gives back the unpadded core. */
  lemma {:induction false} TrimOfPadded(p: string, t: string, q: string)
    requires AllWhitespace(p) && AllWhitespace(q) && Unpadded(t)
    ensures Trim(p + t + q) == t
  {
    if t == [] {
      assert p + t + q == p + q;
      assert AllWhitespace(p + q);
      TrimStartOfPadded(p + q, []);
      assert TrimStart(p + q) == [];
    } else {
      assert p + t + q == p + (t + q);
      TrimStartOfPadded(p, t + q);
      TrimEndOfPadded(t, q);
    }
  }

  /** Adding whitespace before or after a value does not change its trimmed form. */
  lemma PaddingDoesNotChangeTrim(pre: string, s: string, post: string)
    requires AllWhitespace(pre) && AllWhitespace(post)
    ensures Trim(pre + s + post) == Trim(s)
  {
    TrimSplits(s);
    var p, q := Leading(s), Trailing(s);
    Rewrap(pre, s, post, p, Trim(s), q);
    AllWhitespaceConcat(pre, p);
    AllWhitespaceConcat(q, post);
    TrimOfPadded(pre + p, Trim(s), q + post);
  }

  /** A whitespace-only value trims to the empty string. */
  lemma TrimOfWhitespace(s: string)
    requires AllWhitespace(s)
    ensures Trim(s) == []
  {
    assert s == s + [] + [];
    TrimOfPadded(s, [], []);
  }

  // ---------------------------------------------------------------------------
  // String length as JavaScript counts it

  /** The number of UTF-16 code units of s: two for a code point above U+FFFF. */
  function Utf16Length(s: string): (n: nat)
    ensures |s| <= n <= 2 * |s|
  {
    if s == [] then 0 else (if s[0] as int > 0xFFFF then 2 else 1) + Utf16Length(s[1..])
  }

  predicate InBmp(s: string) {
    forall i :: 0 <= i < |s| ==> s[i] as int <= 0xFFFF
  }

  /** Within the Basic Multilingual Plane, JavaScript's length is the number of characters. */
  lemma {:induction false} Utf16LengthInBmp(s: string)
    requires InBmp(s)
    ensures Utf16Length(s) == |s|
  {
    if s != [] {
      assert InBmp(s[1..]) by {
        forall i | 0 <= i < |s[1..]| ensures s[1..][i] as int <= 0xFFFF {
          assert s[1..][i] == s[i + 1];
        }
      }
      Utf16LengthInBmp(s[1..]);
    }
  }

  // ---------------------------------------------------------------------------
  // One property: z.string().trim().min(1).max(64)

  const MinLength: nat := 1
  const MaxLength: nat := 64

  /** The zod issues a property can raise. */
  datatype Issue = InvalidType | TooSmall(minimum: nat) | TooBig(maximum: nat)

  /** Parses one property value, absent (`undefined`) or present; success carries the trimmed string. */
  function CheckField(v: Option<Value>): (r: Result<string, Issue>)
    ensures r.Success? <==> v.Some? && v.value.Str? && MinLength <= Utf16Length(Trim(v.value.s)) <= MaxLength
    ensures r.Success? ==> r.value == Trim(v.value.s)
    ensures !(v.Some? && v.value.Str?) ==> r == Failure(InvalidType)
  {
    match v
    case Some(Str(s)) =>
      var t := Trim(s);
      if Utf16Length(t) < MinLength then Failure(TooSmall(MinLength))
      else if Utf16Length(t) > MaxLength then Failure(TooBig(MaxLength))
      else Success(t)
    case _ => Failure(InvalidType)
  }

  /** A value made only of whitespace is rejected as too small. */
  lemma WhitespaceOnlyRejected(s: string)
    requires AllWhitespace(s)
    ensures CheckField(Some(Str(s))) == Failure(TooSmall(MinLength))
  {
    TrimOfWhitespace(s);
  }

  /** Adding leading or trailing whitespace never changes the verdict or the parsed value. */
  lemma PaddingDoesNotChangeVerdict(pre: string, s: string, post: string)
    requires AllWhitespace(pre) && AllWhitespace(post)
    ensures CheckField(Some(Str(pre + s + post))) == CheckField(Some(Str(s)))
  {
    PaddingDoesNotChangeTrim(pre, s, post);
  }

  /**
   * The bounds are inclusive: an unpadded value of 64 characters of the Basic
   * Multilingual Plane passes, and one of 65 fails.
   */
  lemma LengthBoundIsInclusive(s: string)
    requires Unpadded(s) && InBmp(s)
    ensures |s| == 64 ==> CheckField(Some(Str(s))) == Success(s)
    ensures |s| == 65 ==> CheckField(Some(Str(s))) == Failure(TooBig(MaxLength))
  {
    assert s == [] + s + [];
    TrimOfPadded([], s, []);
    Utf16LengthInBmp(s);
  }

  // ---------------------------------------------------------------------------
  // The two-property object schemas

  /** A z.object with two credential properties of the rule above. */
  datatype Schema = Schema(first: string, second: string)

  const VolcEngineSchema: Schema := Schema("accessKeyId", "secretAccessKey")
  const BytePlusSchema: Schema := Schema("accessKey", "secretKey")

  /** An issue reported for one property of the object. */
  datatype FieldIssue = FieldIssue(path: string, issue: Issue)

  function Lookup(obj: Obj, key: string): Option<Value> {
    if key in obj then Some(obj[key]) else None
  }

  function IssuesOf(key: string, r: Result<string, Issue>): seq<FieldIssue> {
    match r
    case Success(_) => []
    case Failure(e) => [FieldIssue(key, e)]
  }

  /**
   * Parses a form's values: the object of trimmed strings when both properties pass,
   * otherwise every issue, in property order.
   */
  function Parse(schema: Schema, obj: Obj): (r: Result<Obj, seq<FieldIssue>>)
    requires schema.first != schema.second
    ensures r.Success? <==>
      CheckField(Lookup(obj, schema.first)).Success? && CheckField(Lookup(obj, schema.second)).Success?
    ensures r.Success? ==> r.value.Keys == {schema.first, schema.second}
    ensures r.Failure? ==> (r.error ==
      IssuesOf(schema.first, CheckField(Lookup(obj, schema.first)))
      + IssuesOf(schema.second, CheckField(Lookup(obj, schema.second))))
  {
    var a := CheckField(Lookup(obj, schema.first));
    var b := CheckField(Lookup(obj, schema.second));
    if a.Success? && b.Success? then
      Success(map[schema.first := Str(a.value), schema.second := Str(b.value)])
    else
      Failure(IssuesOf(schema.first, a) + IssuesOf(schema.second, b))
  }

  /** The initial model, an empty object, fails on both properties as not being strings. */
  lemma InitialModelFails(schema: Schema)
    requires schema.first != schema.second
    ensures Parse(schema, map[]) ==
      Failure([FieldIssue(schema.first, InvalidType), FieldIssue(schema.second, InvalidType)])
  {
    assert Lookup(map[], schema.first) == None && Lookup(map[], schema.second) == None;
    assert [FieldIssue(schema.first, InvalidType)] + [FieldIssue(schema.second, InvalidType)]
      == [FieldIssue(schema.first, InvalidType), FieldIssue(schema.second, InvalidType)];
  }

  /** Each property's verdict and issues depend only on that property's own value. */
  lemma PropertiesAreIndependent(schema: Schema, obj1: Obj, obj2: Obj)
    requires schema.first != schema.second
    requires SameEntry(obj1, obj2, schema.first)
    ensures IssuesOf(schema.first, CheckField(Lookup(obj1, schema.first)))
      == IssuesOf(schema.first, CheckField(Lookup(obj2, schema.first)))
    ensures CheckField(Lookup(obj1, schema.first)).Failure? ==> Parse(schema, obj1).Failure?
  {
  }

  /** Keys the schema does not name are stripped and do not affect the verdict. */
  lemma OtherKeysStripped(schema: Schema, obj: Obj, extra: Obj)
    requires schema.first != schema.second
    requires schema.first !in extra && schema.second !in extra
    ensures Parse(schema, obj + extra) == Parse(schema, obj)
  {
    assert Lookup(obj + extra, schema.first) == Lookup(obj, schema.first);
    assert Lookup(obj + extra, schema.second) == Lookup(obj, schema.second);
  }

  /** An empty or whitespace-only first property fails the form even when the second is valid. */
  lemma BlankFirstPropertyFails(schema: Schema, obj: Obj)
    requires schema.first != schema.second
    requires schema.first in obj && obj[schema.first].Str? && AllWhitespace(obj[schema.first].s)
    ensures Parse(schema, obj).Failure?
    ensures Parse(schema, obj).error[0] == FieldIssue(schema.first, TooSmall(MinLength))
  {
    WhitespaceOnlyRejected(obj[schema.first].s);
    assert Parse(schema, obj).error[0] == FieldIssue(schema.first, TooSmall(MinLength));
  }

  // ---------------------------------------------------------------------------
  // Agreement with the access config types

  /** The BytePlus form's property names are those of AccessConfigForBytePlus. */
  lemma BytePlusSchemaNamesMatchConfig()
    ensures Access.Names(Access.BytePlusShape) == {BytePlusSchema.first, BytePlusSchema.second}
  {
    assert Access.BytePlusShape[0].name == "accessKey" && Access.BytePlusShape[1].name == "secretKey";
  }

  /** The VolcEngine form's property names are those of AccessConfigForVolcEngine. */
  lemma VolcEngineSchemaNamesMatchConfig()
    ensures Access.Names(Access.VolcEngineShape) == {VolcEngineSchema.first, VolcEngineSchema.second}
  {
    assert Access.VolcEngineShape[0].name == "accessKeyId";
    assert Access.VolcEngineShape[1].name == "secretAccessKey";
  }

  lemma BytePlusEncodes(a: string, b: string)
    ensures Access.Encode(Access.BytePlus(Access.BytePlusConfig(a, b))) == map["accessKey" := Str(a), "secretKey" := Str(b)]
    ensures Access.ProviderOf(Access.BytePlus(Access.BytePlusConfig(a, b))) == "byteplus"
  {
  }

  /** The object of a BytePlus key pair decodes as that pair. */
  lemma BytePlusObjectDecodes(a: string, b: string)
    ensures Access.Decode("byteplus", map["accessKey" := Str(a), "secretKey" := Str(b)]) ==
      Some(Access.BytePlus(Access.BytePlusConfig(a, b)))
  {
    var c := Access.BytePlus(Access.BytePlusConfig(a, b));
    Access.DecodeEncode(c);
    BytePlusEncodes(a, b);
  }

  /** zod's parse output for the BytePlus schema decodes as the BytePlus access config of the trimmed values. */
  lemma BytePlusParsedDecodes(obj: Obj)
    requires Parse(BytePlusSchema, obj).Success?
    ensures Access.Decode("byteplus", Parse(BytePlusSchema, obj).value) ==
      Some(Access.BytePlus(Access.BytePlusConfig(
        Trim(obj[BytePlusSchema.first].s), Trim(obj[BytePlusSchema.second].s))))
  {
    var v := Parse(BytePlusSchema, obj).value;
    BytePlusObjectDecodes(Trim(obj[BytePlusSchema.first].s), Trim(obj[BytePlusSchema.second].s));
  }

  lemma VolcEngineEncodes(a: string, b: string)
    ensures Access.Encode(Access.VolcEngine(Access.VolcEngineConfig(a, b))) == map["accessKeyId" := Str(a), "secretAccessKey" := Str(b)]
    ensures Access.ProviderOf(Access.VolcEngine(Access.VolcEngineConfig(a, b))) == "volcengine"
  {
  }

  /** The object of a VolcEngine key pair decodes as that pair. */
  lemma VolcEngineObjectDecodes(a: string, b: string)
    ensures Access.Decode("volcengine", map["accessKeyId" := Str(a), "secretAccessKey" := Str(b)]) ==
      Some(Access.VolcEngine(Access.VolcEngineConfig(a, b)))
  {
    var c := Access.VolcEngine(Access.VolcEngineConfig(a, b));
    Access.DecodeEncode(c);
    VolcEngineEncodes(a, b);
  }

  /** zod's parse output for the VolcEngine schema decodes as the VolcEngine access config of the trimmed values. */
  lemma VolcEngineParsedDecodes(obj: Obj)
    requires Parse(VolcEngineSchema, obj).Success?
    ensures Access.Decode("volcengine", Parse(VolcEngineSchema, obj).value) ==
      Some(Access.VolcEngine(Access.VolcEngineConfig(
        Trim(obj[VolcEngineSchema.first].s), Trim(obj[VolcEngineSchema.second].s))))
  {
    var v := Parse(VolcEngineSchema, obj).value;
    VolcEngineObjectDecodes(Trim(obj[VolcEngineSchema.first].s), Trim(obj[VolcEngineSchema.second].s));
  }

  /** An accepted object holds a string under each schema key. */
  lemma AcceptedHasStrings(schema: Schema, obj: Obj)
    requires schema.first != schema.second
    requires Parse(schema, obj).Success?
    ensures schema.first in obj && obj[schema.first].Str?
    ensures schema.second in obj && obj[schema.second].Str?
  {
  }

  /** An object with keys k1 and k2 is those two entries plus the rest, which avoids both keys. */
  lemma SplitPair(obj: Obj, k1: string, k2: string) returns (extra: Obj)
    requires k1 in obj && k2 in obj
    ensures obj == map[k1 := obj[k1], k2 := obj[k2]] + extra
    ensures extra.Keys !! {k1, k2}
  {
    extra := map k | k in obj && k != k1 && k != k2 :: obj[k];
    assert obj == map[k1 := obj[k1], k2 := obj[k2]] + extra;
  }

  /**
   * The form hands on its raw field values, not the parse output. When validation
   * passes, the raw object still decodes, as the access config of the untrimmed
   * strings: the padding the schema trims away is kept.
   */
  lemma BytePlusRawDecodes(obj: Obj)
    requires Parse(BytePlusSchema, obj).Success?
    ensures Access.Decode("byteplus", obj) ==
      Some(Access.BytePlus(Access.BytePlusConfig(obj[BytePlusSchema.first].s, obj[BytePlusSchema.second].s)))
  {
    AcceptedHasStrings(BytePlusSchema, obj);
    var a, b := obj[BytePlusSchema.first].s, obj[BytePlusSchema.second].s;
    var extra := SplitPair(obj, "accessKey", "secretKey");
    BytePlusTypeNames();
    Access.DecodeIgnoresOtherKeys("byteplus", map["accessKey" := Str(a), "secretKey" := Str(b)], extra);
    BytePlusObjectDecodes(a, b);
  }

  lemma BytePlusTypeNames()
    ensures Access.ConfigTypeOf("byteplus") == Some(Access.ForBytePlus)
    ensures Access.Names(Access.ShapeOf(Access.ForBytePlus)) == {"accessKey", "secretKey"}
  {
    BytePlusSchemaNamesMatchConfig();
  }

  /** The VolcEngine counterpart of BytePlusRawDecodes. */
  lemma VolcEngineRawDecodes(obj: Obj)
    requires Parse(VolcEngineSchema, obj).Success?
    ensures Access.Decode("volcengine", obj) ==
      Some(Access.VolcEngine(Access.VolcEngineConfig(obj[VolcEngineSchema.first].s, obj[VolcEngineSchema.second].s)))
  {
    AcceptedHasStrings(VolcEngineSchema, obj);
    var a, b := obj[VolcEngineSchema.first].s, obj[VolcEngineSchema.second].s;
    var extra := SplitPair(obj, "accessKeyId", "secretAccessKey");
    VolcEngineTypeNames();
    Access.DecodeIgnoresOtherKeys("volcengine", map["accessKeyId" := Str(a), "secretAccessKey" := Str(b)], extra);
    VolcEngineObjectDecodes(a, b);
  }

  lemma VolcEngineTypeNames()
    ensures Access.ConfigTypeOf("volcengine") == Some(Access.ForVolcEngine)
    ensures Access.Names(Access.ShapeOf(Access.ForVolcEngine)) == {"accessKeyId", "secretAccessKey"}
  {
    VolcEngineSchemaNamesMatchConfig();
  }
}
