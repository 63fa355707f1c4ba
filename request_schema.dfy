/**
 * The request schema of the emoji route: `svgKey` must match the asset-key
 * pattern and `description` must be a string of 1 to 200 JavaScript
 * characters. Unknown fields are stripped, and a rejection names every field
 * that failed.
 */
module RequestSchema {
  import opened Text
  import opened Json

  const MaxDescriptionLength: nat := 200

  // Character classes of the svgKey pattern. Under the `i` flag without `u`,
  // no non-ASCII character folds onto an ASCII letter (`ſ`, `ı` and the Kelvin
  // sign do not match), so `[a-z]` is exactly `[A-Za-z]`.

  /** `[a-z]` under the `i` flag. */
  predicate IsLetter(c: char) { 'a' <= c <= 'z' || 'A' <= c <= 'Z' }

  predicate IsDigit(c: char) { '0' <= c <= '9' }

  /** `[a-z0-9]` under the `i` flag. */
  predicate IsAlnum(c: char) { IsLetter(c) || IsDigit(c) }

  /** `[a-z0-9\-]` under the `i` flag. */
  predicate IsIdChar(c: char) { IsAlnum(c) || c == '-' }

  /** `[0-9a-f]` under the `i` flag. */
  predicate IsHexDigit(c: char) { IsDigit(c) || 'a' <= c <= 'f' || 'A' <= c <= 'F' }

  predicate AllLetters(s: string) { forall i :: 0 <= i < |s| ==> IsLetter(s[i]) }
  predicate AllAlnum(s: string) { forall i :: 0 <= i < |s| ==> IsAlnum(s[i]) }
  predicate AllIdChars(s: string) { forall i :: 0 <= i < |s| ==> IsIdChar(s[i]) }
  predicate AllHexDigits(s: string) { forall i :: 0 <= i < |s| ==> IsHexDigit(s[i]) }

  // The pattern as written:
  //   ^ [a-z]+ \/ [a-z0-9\-]+ (?:\-[a-z0-9]+)* (?:\-[0-9a-f]{4})* $   (flag i)

  /** The strings matched by `(?:\-[a-z0-9]+)*`. */
  ghost predicate AlnumGroups(s: string)
    decreases |s|
  {
    s == [] ||
    (s[0] == '-' && exists k :: 2 <= k <= |s| && AllAlnum(s[1..k]) && AlnumGroups(s[k..]))
  }

  /** The strings matched by `(?:\-[0-9a-f]{4})*`. */
  ghost predicate HexGroups(s: string)
    decreases |s|
  {
    s == [] || (|s| >= 5 && s[0] == '-' && AllHexDigits(s[1..5]) && HexGroups(s[5..]))
  }

  /** `s[..i]`, `s[i]`, `s[i + 1..j]`, `s[j..k]` and `s[k..]` match the five
      parts of the svgKey pattern in turn. */
  ghost predicate RegexSplit(s: string, i: int, j: int, k: int)
  {
    0 < i && i + 1 < j <= k <= |s| && s[i] == '/'
      && AllLetters(s[..i]) && AllIdChars(s[i + 1..j]) && AlnumGroups(s[j..k]) && HexGroups(s[k..])
  }

  /** The strings the whole svgKey pattern matches: some split of `s` into the
      pattern's five parts. */
  ghost predicate RegexAccepts(s: string)
  {
    exists i, j, k :: RegexSplit(s, i, j, k)
  }

  /** The grammar the pattern amounts to: one or more letters, `/`, one or
      more letters, digits or hyphens. */
  predicate IsAssetKey(key: string)
  {
    var i := IndexOf(key, '/');
    0 < i && i + 1 < |key| && AllLetters(key[..i]) && AllIdChars(key[i + 1..])
  }

  /** The part of a key before its `/`. */
  function Category(key: string): string
    requires IsAssetKey(key)
  {
    key[..IndexOf(key, '/')]
  }

  /** The part of a key after its `/`. */
  function Id(key: string): string
    requires IsAssetKey(key)
  {
    key[IndexOf(key, '/') + 1..]
  }

  lemma {:induction false} AlnumGroupsAreIdChars(s: string)
    requires AlnumGroups(s)
    ensures AllIdChars(s)
    decreases |s|
  {
    if s != [] {
      var k :| 2 <= k <= |s| && AllAlnum(s[1..k]) && AlnumGroups(s[k..]);
      AlnumGroupsAreIdChars(s[k..]);
      forall i | 0 <= i < |s| ensures IsIdChar(s[i]) {
        if 1 <= i < k { assert s[1..k][i - 1] == s[i]; }
        else if k <= i { assert s[k..][i - k] == s[i]; }
      }
    }
  }

  lemma {:induction false} HexGroupsAreIdChars(s: string)
    requires HexGroups(s)
    ensures AllIdChars(s)
    decreases |s|
  {
    if s != [] {
      HexGroupsAreIdChars(s[5..]);
      forall i | 0 <= i < |s| ensures IsIdChar(s[i]) {
        if 1 <= i < 5 { assert s[1..5][i - 1] == s[i]; }
        else if 5 <= i { assert s[5..][i - 5] == s[i]; }
      }
    }
  }

  /** Whatever the svgKey pattern matches fits the simple grammar: its two
      trailing groups only add hyphens, letters and digits, which the id class
      already holds. */
  lemma RegexAcceptsOnlyAssetKeys(s: string)
    requires RegexAccepts(s)
    ensures IsAssetKey(s)
  {
    var i, j, k :| RegexSplit(s, i, j, k);
    RegexSplitIsAssetKey(s, i, j, k);
  }

  lemma RegexSplitIsAssetKey(s: string, i: int, j: int, k: int)
    requires RegexSplit(s, i, j, k)
    ensures IsAssetKey(s)
  {
    SlashIsFirst(s, i);
    AlnumGroupsAreIdChars(s[j..k]);
    HexGroupsAreIdChars(s[k..]);
    assert s[i + 1..] == s[i + 1..j] + s[j..k] + s[k..];
    IdCharsConcat(s[i + 1..j], s[j..k], s[k..]);
  }

  /** A `/` after a run of letters is the first `/`. */
  lemma SlashIsFirst(s: string, i: int)
    requires 0 <= i < |s| && s[i] == '/' && AllLetters(s[..i])
    ensures IndexOf(s, '/') == i
  {
    forall q | 0 <= q < i ensures s[q] != '/' { assert s[..i][q] == s[q]; }
  }

  lemma IdCharsConcat(x: string, y: string, z: string)
    requires AllIdChars(x) && AllIdChars(y) && AllIdChars(z)
    ensures AllIdChars(x + y + z)
  {
    var w := x + y + z;
    forall p | 0 <= p < |w| ensures IsIdChar(w[p]) {
      if p < |x| { assert w[p] == x[p]; }
      else if p < |x| + |y| { assert w[p] == y[p - |x|]; }
      else { assert w[p] == z[p - |x| - |y|]; }
    }
  }

  /** Every key of the simple grammar is matched by the svgKey pattern, with
      both trailing groups empty. */
  lemma AssetKeysMatchRegex(s: string)
    requires IsAssetKey(s)
    ensures RegexAccepts(s)
  {
    var i := IndexOf(s, '/');
    assert s[i + 1..|s|] == s[i + 1..];
    assert AlnumGroups(s[|s|..|s|]) && HexGroups(s[|s|..]);
    assert RegexSplit(s, i, |s|, |s|);
  }

  /** The svgKey pattern accepts exactly the simple grammar. */
  lemma RegexIsAssetKey(s: string)
    ensures RegexAccepts(s) <==> IsAssetKey(s)
  {
    if RegexAccepts(s) { RegexAcceptsOnlyAssetKeys(s); }
    if IsAssetKey(s) { AssetKeysMatchRegex(s); }
  }

  /** Neither part of an accepted key holds a `/`, a `.` or a `\`. */
  lemma KeyPartsPlain(key: string)
    requires IsAssetKey(key)
    ensures forall c :: c in Category(key) ==> IsLetter(c)
    ensures forall c :: c in Id(key) ==> IsIdChar(c)
  {
    var c, d := Category(key), Id(key);
    forall x | x in c ensures IsLetter(x) { var p :| 0 <= p < |c| && c[p] == x; }
    forall x | x in d ensures IsIdChar(x) { var p :| 0 <= p < |d| && d[p] == x; }
  }

  /** An accepted key is its category, a `/` and its id. */
  lemma KeyJoin(key: string)
    requires IsAssetKey(key)
    ensures key == Category(key) + ['/'] + Id(key)
  {
    var i := IndexOf(key, '/');
    assert key == key[..i] + [key[i]] + key[i + 1..];
  }

  /** An accepted key splits on `/` into its category and its id. */
  lemma KeySplit(key: string)
    requires IsAssetKey(key)
    ensures Split(key, '/') == [Category(key), Id(key)]
  {
    var c, d := Category(key), Id(key);
    KeyJoin(key);
    KeyPartsPlain(key);
    SplitAt(c, '/', d);
    SplitNoSeparator(c, '/');
    SplitNoSeparator(d, '/');
  }

  /** An accepted key has no `.` and no `\`. */
  lemma KeyCharset(key: string)
    requires IsAssetKey(key)
    ensures '.' !in key && '\\' !in key
  {
    var c, d := Category(key), Id(key);
    KeyJoin(key);
    KeyPartsPlain(key);
    assert forall x :: x in key ==> x in c || x == '/' || x in d;
  }

  /** An accepted key is a non-empty letter category, one `/` and a non-empty
      id; it has no `.` and no `\`. */
  lemma KeyShape(key: string)
    requires IsAssetKey(key)
    ensures key == Category(key) + "/" + Id(key)
    ensures |Category(key)| > 0 && AllLetters(Category(key))
    ensures |Id(key)| > 0 && AllIdChars(Id(key))
    ensures Split(key, '/') == [Category(key), Id(key)]
    ensures '.' !in key && '\\' !in key
  {
    KeyJoin(key);
    KeySplit(key);
    KeyCharset(key);
  }

  // Validation of the whole body.

  /** A field of the schema; `Body` stands for the body itself when it is not
      a JSON object. */
  datatype Field = Body | SvgKey | Description

  /** The names `z.object` keeps; every other field is stripped. */
  const SchemaKeys: set<string> := {"svgKey", "description"}

  datatype Request = Request(svgKey: string, description: string)

  datatype Validation = Accepted(request: Request) | Rejected(issues: set<Field>)

  /** `svgKey` is present, a string, and matched by the pattern. */
  ghost predicate KeyMeetsSchema(fields: map<string, Value>)
  {
    "svgKey" in fields && fields["svgKey"].Str? && RegexAccepts(fields["svgKey"].s)
  }

  /** `description` is present, a string, and 1 to 200 JavaScript characters long. */
  predicate DescriptionMeetsSchema(fields: map<string, Value>)
  {
    "description" in fields && fields["description"].Str?
      && 1 <= Utf16Length(fields["description"].s) <= MaxDescriptionLength
  }

  /** The computed check on `svgKey`: present, a string, and an asset key,
      which is exactly what the pattern demands. */
  predicate KeyValid(fields: map<string, Value>): (ok: bool)
    ensures ok <==> KeyMeetsSchema(fields)
  {
    if "svgKey" in fields && fields["svgKey"].Str? then
      RegexIsAssetKey(fields["svgKey"].s);
      IsAssetKey(fields["svgKey"].s)
    else false
  }

  /** `requestSchema.safeParse(body)`: on success the two fields exactly as
      received, otherwise every failing field. */
  function Validate(body: Value): (v: Validation)
    ensures !body.Object? ==> v == Rejected({Body})
    ensures body.Object? ==>
      (v.Accepted? <==> KeyMeetsSchema(body.fields) && DescriptionMeetsSchema(body.fields))
    ensures v.Accepted? ==>
      && body.Object?
      && "svgKey" in body.fields && body.fields["svgKey"] == Str(v.request.svgKey)
      && "description" in body.fields && body.fields["description"] == Str(v.request.description)
    ensures body.Object? && v.Rejected? ==>
      && (SvgKey in v.issues <==> !KeyMeetsSchema(body.fields))
      && (Description in v.issues <==> !DescriptionMeetsSchema(body.fields))
      && Body !in v.issues
  {
    if !body.Object? then Rejected({Body})
    else
      var fields := body.fields;
      var keyOk := KeyValid(fields);
      var descriptionOk := DescriptionMeetsSchema(fields);
      if keyOk && descriptionOk then
        Accepted(Request(fields["svgKey"].s, fields["description"].s))
      else
        Rejected((if keyOk then {} else {SvgKey}) + (if descriptionOk then {} else {Description}))
  }

  /** Fields other than `svgKey` and `description` do not affect the outcome:
      `z.object` strips them rather than rejecting them. */
  lemma ValidateIgnoresOtherFields(fields: map<string, Value>)
    ensures Validate(Object(fields)) == Validate(Object(map k | k in fields && k in SchemaKeys :: fields[k]))
  {
  }

  /** The description is neither trimmed nor filtered: any string of 1 to 100
      characters meets the bound, whatever it holds, blanks included. */
  lemma ShortDescriptionsMeetBound(d: string)
    requires 1 <= |d| <= MaxDescriptionLength / 2
    ensures DescriptionMeetsSchema(map["description" := Str(d)])
  {
    Utf16LengthBounds(d);
  }

  /** For text in the Basic Multilingual Plane the bound counts characters. */
  lemma BmpDescriptionBound(d: string)
    requires forall i :: 0 <= i < |d| ==> InBmp(d[i])
    ensures DescriptionMeetsSchema(map["description" := Str(d)]) <==> 1 <= |d| <= MaxDescriptionLength
  {
    Utf16LengthBounds(d);
  }

  /** More than 200 characters never meet the bound. */
  lemma LongDescriptionsFail(d: string)
    requires |d| > MaxDescriptionLength
    ensures !DescriptionMeetsSchema(map["description" := Str(d)])
  {
    Utf16LengthBounds(d);
  }

  /** The bound counts UTF-16 code units: 101 emoji outside the Basic
      Multilingual Plane are 202 units and fail it. */
  lemma AstralDescriptionFails()
    ensures !DescriptionMeetsSchema(map["description" := Str(seq(101, _ => '\U{1F600}'))])
  {
    var d := seq(101, _ => '\U{1F600}');
    Utf16LengthBounds(d);
    assert Utf16Length(d) == 202;
  }
}
