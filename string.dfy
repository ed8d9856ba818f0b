/**
 * The string kind. Like the array kind, every builder returns a new node made
 * by `copyWith`. `pattern` turns a regular expression into the text stored
 * under `pattern`; the regular expression is only text to the builder.
 */
module StringKind {
  import opened JsonDoc
  import opened Base

  /** `new StringSchema()`: a new node whose only keyword is `type: 'string'`. */
  function New(): (n: Node)
    ensures n.plain.Keys == {"type"} && n.plain["type"] == JStr("string")
    ensures n.isRequired && n.schemaUri == Draft07 && n.definitions == None
  {
    CopyWith(Initial, map["type" := JStr(StringType.Name())])
  }

  function ContentMediaType(n: Node, contentMediaType: string): (r: Node)
    ensures Patched(n, r, map["contentMediaType" := JStr(contentMediaType)])
  {
    CopyWith(n, map["contentMediaType" := JStr(contentMediaType)])
  }

  function ContentEncoding(n: Node, contentEncoding: string): (r: Node)
    ensures Patched(n, r, map["contentEncoding" := JStr(contentEncoding)])
  {
    CopyWith(n, map["contentEncoding" := JStr(contentEncoding)])
  }

  function Format(n: Node, format: string): (r: Node)
    ensures Patched(n, r, map["format" := JStr(format)])
  {
    CopyWith(n, map["format" := JStr(format)])
  }

  function MinLength(n: Node, minLength: int): (r: Node)
    ensures Patched(n, r, map["minLength" := JNum(minLength)])
  {
    CopyWith(n, map["minLength" := JNum(minLength)])
  }

  function MaxLength(n: Node, maxLength: int): (r: Node)
    ensures Patched(n, r, map["maxLength" := JNum(maxLength)])
  {
    CopyWith(n, map["maxLength" := JNum(maxLength)])
  }

  /** `optional()`: a new node that differs only in the flag. */
  function Optional(n: Node): (r: Node)
    ensures FlagSet(n, r, false)
  {
    CopyWithRequired(n, false)
  }

  /** A regular expression literal: its source text (with `/` escaped as `\/`) and its flags. */
  datatype RegExp = RegExp(source: string, flags: string)

  /** `RegExp.prototype.toString`: `/source/flags`. */
  function ToText(re: RegExp): (t: string)
    ensures |t| == |re.source| + |re.flags| + 2
    ensures t[0] == '/' && t[|re.source| + 1] == '/'
    ensures t[1..|re.source| + 1] == re.source && t[|re.source| + 2..] == re.flags
  {
    "/" + re.source + "/" + re.flags
  }

  /** `pat` occurs in `s` starting at index `i`. */
  predicate OccursAt(s: string, pat: string, i: int) {
    0 <= i && i + |pat| <= |s| && s[i..i + |pat|] == pat
  }

  /** `String.prototype.replace` with a string pattern: only the first occurrence is replaced. */
  function ReplaceFirst(s: string, pat: string, rep: string): (r: string)
    ensures |r| == |s| || |r| == |s| - |pat| + |rep|
    ensures pat == [] ==> r == rep + s
    decreases |s|
  {
    if |pat| <= |s| && s[..|pat|] == pat then rep + s[|pat|..]
    else if |s| == 0 then s
    else [s[0]] + ReplaceFirst(s[1..], pat, rep)
  }

  /** An occurrence in the tail is an occurrence one place further in the whole text. */
  lemma OccursInTail(s: string, pat: string, j: int)
    requires |s| > 0 && 0 <= j
    ensures OccursAt(s[1..], pat, j) <==> OccursAt(s, pat, j + 1)
  {
    if j + |pat| <= |s| - 1 {
      assert s[1..][j..j + |pat|] == s[j + 1..j + 1 + |pat|];
    }
  }

  /** Past a text that does not start with `pat`, `ReplaceFirst` keeps the first character and goes on. */
  lemma ReplaceFirstStep(s: string, pat: string, rep: string)
    requires |s| > 0 && !OccursAt(s, pat, 0)
    ensures ReplaceFirst(s, pat, rep) == [s[0]] + ReplaceFirst(s[1..], pat, rep)
  {
    if |pat| <= |s| {
      assert s[..|pat|] == s[0..|pat|];
    }
  }

  /** Where `pat` first occurs at `i`, exactly that occurrence is replaced. */
  lemma {:induction false} ReplaceFirstAt(s: string, pat: string, rep: string, i: int)
    requires OccursAt(s, pat, i)
    requires forall j :: 0 <= j < i ==> !OccursAt(s, pat, j)
    ensures ReplaceFirst(s, pat, rep) == s[..i] + rep + s[i + |pat|..]
    decreases |s|
  {
    if i == 0 {
      assert s[..|pat|] == s[0..|pat|];
    } else {
      var t := s[1..];
      ReplaceFirstStep(s, pat, rep);
      OccursInTail(s, pat, i - 1);
      forall j | 0 <= j < i - 1
        ensures !OccursAt(t, pat, j)
      {
        OccursInTail(s, pat, j);
      }
      ReplaceFirstAt(t, pat, rep, i - 1);
      assert s[..i] == [s[0]] + t[..i - 1];
      assert s[i + |pat|..] == t[i - 1 + |pat|..];
    }
  }

  /** Where `pat` occurs at all, exactly `|pat|` characters give way to `rep`. */
  lemma {:induction false} ReplaceFirstLength(s: string, pat: string, rep: string, i: int)
    requires OccursAt(s, pat, i)
    ensures |ReplaceFirst(s, pat, rep)| == |s| - |pat| + |rep|
    decreases |s|
  {
    if !OccursAt(s, pat, 0) {
      assert i > 0;
      ReplaceFirstStep(s, pat, rep);
      OccursInTail(s, pat, i - 1);
      ReplaceFirstLength(s[1..], pat, rep, i - 1);
    } else {
      assert s[..|pat|] == s[0..|pat|];
    }
  }

  /** In the text after the leading `/`, the closing `/` and the flags follow the source. */
  lemma SlashFlagsFollowSource(re: RegExp)
    ensures OccursAt(ToText(re)[1..], "/" + re.flags, |re.source|)
  {
    var t := ToText(re);
    var n := |re.source|;
    assert t[1..][n..n + 1 + |re.flags|] == t[n + 1..];
    assert t[n + 1..] == [t[n + 1]] + t[n + 2..];
  }

  /** Where `pat` does not occur, the text is returned unchanged. */
  lemma {:induction false} ReplaceFirstAbsent(s: string, pat: string, rep: string)
    requires forall j :: 0 <= j <= |s| ==> !OccursAt(s, pat, j)
    ensures ReplaceFirst(s, pat, rep) == s
    decreases |s|
  {
    if |s| > 0 {
      var t := s[1..];
      ReplaceFirstStep(s, pat, rep);
      forall j | 0 <= j <= |t|
        ensures !OccursAt(t, pat, j)
      {
        OccursInTail(s, pat, j);
      }
      ReplaceFirstAbsent(t, pat, rep);
    } else {
      assert !OccursAt(s, pat, 0);
    }
  }

  /**
   * The text `pattern(re)` stores as written:
   * `re.toString().substr(1).replace('/' + re.flags, '')`.
   */
  function PatternTextAsWritten(re: RegExp): (text: string)
    ensures |text| == |re.source|
  {
    SlashFlagsFollowSource(re);
    ReplaceFirstLength(ToText(re)[1..], "/" + re.flags, "", |re.source|);
    ReplaceFirst(ToText(re)[1..], "/" + re.flags, "")
  }

  /** `pattern(re)` as written. */
  function PatternAsWritten(n: Node, re: RegExp): (r: Node)
    ensures Patched(n, r, map["pattern" := JStr(PatternTextAsWritten(re))])
  {
    CopyWith(n, map["pattern" := JStr(PatternTextAsWritten(re))])
  }

  /** When the source holds no `/`, the stored text is exactly the source, with no flags. */
  lemma PatternAsWrittenWithoutSlash(re: RegExp)
    requires '/' !in re.source
    ensures PatternTextAsWritten(re) == re.source
  {
    var s := ToText(re)[1..];
    var pat := "/" + re.flags;
    var i := |re.source|;
    assert s == re.source + pat;
    assert s[i..i + |pat|] == pat;
    forall j | 0 <= j < i
      ensures !OccursAt(s, pat, j)
    {
      assert s[j] == re.source[j];
    }
    ReplaceFirstAt(s, pat, "", i);
    assert s[..i] == re.source;
  }

  /**
   * A source containing an escaped slash is mangled: for `/a\/b/` the first `/`
   * removed is the one inside the source, and `a\b/` is stored instead of `a\/b`.
   */
  lemma PatternAsWrittenMangles()
    ensures PatternTextAsWritten(RegExp("a\\/b", "")) == "a\\b/"
    ensures PatternTextAsWritten(RegExp("a\\/b", "")) != "a\\/b"
  {
    var s: string := "a\\/b/";
    assert ToText(RegExp("a\\/b", ""))[1..] == s;
    assert s[0..1] == "a";
    ReplaceFirstStep(s, "/", "");
    var t: string := "\\/b/";
    assert s[1..] == t && t[0..1] == "\\";
    ReplaceFirstStep(t, "/", "");
    assert t[1..] == "/b/";
    assert ReplaceFirst("/b/", "/", "") == "b/";
  }

  /** `pattern(re)` storing the regular expression's source text, flags stripped. */
  function Pattern(n: Node, re: RegExp): (r: Node)
    ensures Patched(n, r, map["pattern" := JStr(re.source)])
  {
    CopyWith(n, map["pattern" := JStr(re.source)])
  }

  /** Wherever the written code is right, the corrected `pattern` agrees with it. */
  lemma PatternAgreesWithoutSlash(n: Node, re: RegExp)
    requires '/' !in re.source
    ensures Pattern(n, re) == PatternAsWritten(n, re)
  {
    PatternAsWrittenWithoutSlash(re);
  }
}
