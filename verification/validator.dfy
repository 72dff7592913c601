/**
 * The custom rules and error shaping of internal/util/validator/validator.go.
 * Reflection is replaced by the values it would read: a field's `json` tag,
 * a field's string, string slice or numeric value. The `time.Parse` based
 * rules are not modelled.
 */
module Validator {

  import opened Results
  import opened Strings

  /** The name part of a `json` struct tag: the text before the first comma. */
  function TagName(tag: string): (name: string)
    ensures ',' !in name
    ensures IsPrefix(name, tag)
    ensures |name| < |tag| ==> tag[|name|] == ','
  {
    var parts := Split(tag, ',');
    JoinSplit(tag, ',');
    if |parts| == 1 then parts[0]
    else
      assert Join(parts, ',') == parts[0] + [','] + Join(parts[1..], ',');
      parts[0]
  }

  /** `extractJsonTag`: the tag's name part, with `-` (the field is skipped) reported as "". */
  function ExtractJsonTag(tag: string): (name: string)
    ensures name == "" <==> TagName(tag) in {"", "-"}
    ensures name != "" ==> name == TagName(tag)
  {
    var name := TagName(tag);
    if name == "-" then "" else name
  }

  /** A tag `name,options` gives `name` back, whatever the options. */
  lemma NameBeforeOptions(name: string, options: string)
    requires ',' !in name && name != "-"
    ensures ExtractJsonTag(name) == name
    ensures ExtractJsonTag(name + "," + options) == name
  {
    SplitJoin([name], ',');
    assert Split("," + options, ',')[0] == "";
    SplitSepFreePrefix(name, "," + options, ',');
    assert name + "," + options == name + ("," + options);
  }

  /** One entry of a validation failure as the API reports it. */
  datatype ErrorValidate = ErrorValidate(key: string, codeMessage: string, message: string)

  /** One `validator.FieldError`: the field it is about and its text. */
  datatype FieldError = FieldError(field: string, message: string)

  /** What `Validator.Struct` can return: nothing, its own field errors, or any other error. */
  datatype StructError = NoError | FieldErrors(errors: seq<FieldError>) | OtherError(message: string)

  const ValidationCode: string := "VALIDATION"
  const UnknownKey: string := "unknown"

  /**
   * `processValidationErrors`: nil for no error, one `unknown` entry for a
   * foreign error, and otherwise one entry per field error, in order.
   */
  method ProcessValidationErrors(err: StructError) returns (entries: Option<seq<ErrorValidate>>)
    ensures err.NoError? <==> entries.None?
    ensures err.OtherError? ==> entries == Some([ErrorValidate(UnknownKey, ValidationCode, err.message)])
    ensures err.FieldErrors? ==> entries.Some? && |entries.value| == |err.errors|
    ensures err.FieldErrors? ==> forall i :: 0 <= i < |err.errors| ==>
      entries.value[i] == ErrorValidate(err.errors[i].field, ValidationCode, err.errors[i].message)
  {
    match err
    case NoError =>
      return None;
    case OtherError(m) =>
      return Some([ErrorValidate(UnknownKey, ValidationCode, m)]);
    case FieldErrors(es) =>
      var out: seq<ErrorValidate> := [];
      var i := 0;
      while i < |es|
        invariant 0 <= i <= |es|
        invariant |out| == i
        invariant forall k :: 0 <= k < i ==> out[k] == ErrorValidate(es[k].field, ValidationCode, es[k].message)
      {
        out := out + [ErrorValidate(es[i].field, ValidationCode, es[i].message)];
        i := i + 1;
      }
      return Some(out);
  }

  /** A sort key segment begins with `+` or `-`. */
  predicate SignedSegment(v: string) {
    |v| > 0 && (v[0] == '+' || v[0] == '-')
  }

  /** Every segment is signed. */
  predicate AllSigned(segments: seq<string>) {
    forall i :: 0 <= i < |segments| ==> SignedSegment(segments[i])
  }

  /**
   * The loop of `sortParams` over the comma-separated segments, in order: it
   * reads the first character of each, so an empty segment reached before any
   * unsigned one panics with an index out of range.
   */
  function ScanSegments(segments: seq<string>): (r: Run<bool>)
    ensures r == Completed(true) <==> AllSigned(segments)
    ensures r.Panicked? <==>
      exists i :: 0 <= i < |segments| && segments[i] == "" && forall j :: 0 <= j < i ==> SignedSegment(segments[j])
    decreases |segments|
  {
    if |segments| == 0 then Completed(true)
    else if |segments[0]| == 0 then Panicked("index out of range")
    else if segments[0][0] != '+' && segments[0][0] != '-' then Completed(false)
    else
      var r := ScanSegments(segments[1..]);
      assert forall i :: 1 <= i < |segments| ==> segments[i] == segments[1..][i - 1];
      if r.Panicked? then
        assert exists i :: 1 <= i < |segments| && segments[i] == "" && forall j :: 0 <= j < i ==> SignedSegment(segments[j]) by {
          var k :| 0 <= k < |segments| - 1 && segments[1..][k] == "" && forall j :: 0 <= j < k ==> SignedSegment(segments[1..][j]);
          assert segments[k + 1] == "";
          assert forall j :: 1 <= j < k + 1 ==> SignedSegment(segments[j]);
        }
        r
      else r
  }

  /** `sortParams` as written: the field's string split on commas and scanned. */
  function SortParamsAsWritten(s: string): (r: Run<bool>)
    ensures r == ScanSegments(Split(s, ','))
  {
    ScanSegments(Split(s, ','))
  }

  /** An empty field and a trailing comma both make the rule panic instead of refusing the value. */
  lemma SortParamsPanicsOnEmptySegment()
    ensures SortParamsAsWritten("").Panicked?
    ensures SortParamsAsWritten("+name,").Panicked?
  {
    assert Split("", ',') == [""];
    assert Split("+name,", ',')[1] == "" by {
      SplitSepFreePrefix("+name", ",", ',');
    }
    assert SignedSegment(Split("+name,", ',')[0]) by {
      SplitSepFreePrefix("+name", ",", ',');
    }
  }

  /** `sortParams` with an empty segment refused like an unsigned one. */
  function SortParams(s: string): (ok: bool)
    ensures ok <==> AllSigned(Split(s, ','))
  {
    ScanSegments(Split(s, ',')) == Completed(true)
  }

  /** Wherever the source does not panic, the guarded rule gives its answer. */
  lemma SortParamsAgreesWithoutEmptySegments(s: string)
    requires "" !in Split(s, ',')
    ensures SortParamsAsWritten(s) == Completed(SortParams(s))
  {
    var segments := Split(s, ',');
    assert forall i :: 0 <= i < |segments| ==> segments[i] != "" by {
      forall i | 0 <= i < |segments| ensures segments[i] != "" {
        assert segments[i] in segments;
      }
    }
    var r := ScanSegments(segments);
    assert r.Completed?;
    assert SortParamsAsWritten(s) == r;
    assert SortParams(s) == (r == Completed(true));
    assert r == Completed(r.value);
    if r.value {
      assert SortParams(s);
    } else {
      assert !SortParams(s);
    }
  }

  /** A comma-separated list of signed keys passes, and one unsigned key fails it. */
  lemma SortParamsOfKeys(keys: seq<string>)
    requires |keys| >= 1 && forall i :: 0 <= i < |keys| ==> ',' !in keys[i]
    ensures SortParams(Join(keys, ',')) <==> AllSigned(keys)
  {
    SplitJoin(keys, ',');
  }

  /** `dateRangeParams` as written: byte 10 must be `~`; a shorter string panics. */
  function DateRangeParamsAsWritten(s: string): (r: Run<bool>)
    ensures r.Panicked? <==> |s| <= 10
    ensures r.Completed? ==> (r.value <==> s[10] == '~')
  {
    if |s| <= 10 then Panicked("index out of range") else Completed(s[10] == '~')
  }

  /** A date alone, ten characters, makes the rule panic. */
  lemma DateRangePanicsOnShortValue()
    ensures DateRangeParamsAsWritten("2024-01-01").Panicked?
  {
  }

  /** `dateRangeParams` with a short value refused. */
  function DateRangeParams(s: string): (ok: bool)
    ensures ok <==> |s| >= 11 && s[10] == '~'
  {
    |s| > 10 && s[10] == '~'
  }

  /** Two ten-character dates joined by `~` pass; the guarded rule and the source agree on every long value. */
  lemma DateRangeOfTwoDates(from: string, to: string, s: string)
    requires |from| == 10
    requires |s| > 10
    ensures DateRangeParams(from + "~" + to)
    ensures DateRangeParamsAsWritten(s) == Completed(DateRangeParams(s))
  {
    assert (from + "~" + to)[10] == '~';
  }

  /** A character of `[a-z_]`. */
  predicate IsKeyChar(c: char) {
    ('a' <= c <= 'z') || c == '_'
  }

  /** The strings the pattern `^[+\-][a-z_]+$` matches: a sign, then one or more key characters. */
  predicate SortKey(v: string) {
    |v| >= 2 && (v[0] == '+' || v[0] == '-') && forall k :: 1 <= k < |v| ==> IsKeyChar(v[k])
  }

  /** The states of a matcher for `^[+\-][a-z_]+$`. */
  datatype MatchState = ExpectSign | ExpectKeyChar | InKey | Dead

  function Next(st: MatchState, c: char): MatchState {
    match st
    case ExpectSign => if c == '+' || c == '-' then ExpectKeyChar else Dead
    case ExpectKeyChar => if IsKeyChar(c) then InKey else Dead
    case InKey => if IsKeyChar(c) then InKey else Dead
    case Dead => Dead
  }

  function RunFrom(st: MatchState, v: string): MatchState
    decreases |v|
  {
    if |v| == 0 then st else RunFrom(Next(st, v[0]), v[1..])
  }

  /** The compiled pattern's `MatchString`: the matcher ends in its accepting state. */
  predicate Matches(v: string) {
    RunFrom(ExpectSign, v) == InKey
  }

  /** Once dead, the matcher stays dead. */
  lemma {:induction false} DeadStaysDead(v: string)
    ensures RunFrom(Dead, v) == Dead
    decreases |v|
  {
    if |v| > 0 {
      DeadStaysDead(v[1..]);
    }
  }

  /** From inside a key, the matcher accepts exactly the runs of key characters. */
  lemma {:induction false} InKeyAccepts(v: string)
    ensures RunFrom(InKey, v) == InKey <==> forall k :: 0 <= k < |v| ==> IsKeyChar(v[k])
    decreases |v|
  {
    if |v| > 0 {
      InKeyAccepts(v[1..]);
      if !IsKeyChar(v[0]) {
        DeadStaysDead(v[1..]);
      }
      assert forall k :: 1 <= k < |v| ==> v[k] == v[1..][k - 1];
    }
  }

  /** The matcher accepts exactly the sort keys. */
  lemma MatchesIffSortKey(v: string)
    ensures Matches(v) <==> SortKey(v)
  {
    if |v| >= 1 {
      if v[0] != '+' && v[0] != '-' {
        DeadStaysDead(v[1..]);
      } else if |v| >= 2 {
        var w := v[2..];
        assert v[1..][1..] == w;
        assert RunFrom(ExpectSign, v) == RunFrom(ExpectKeyChar, v[1..]);
        assert v[1..][0] == v[1];
        assert RunFrom(ExpectKeyChar, v[1..]) == RunFrom(Next(ExpectKeyChar, v[1]), w);
        if IsKeyChar(v[1]) {
          InKeyAccepts(w);
          assert forall k :: 2 <= k < |v| ==> v[k] == w[k - 2];
          assert forall k :: 0 <= k < |w| ==> w[k] == v[k + 2];
        } else {
          DeadStaysDead(w);
        }
      } else {
        assert RunFrom(ExpectSign, v) == RunFrom(ExpectKeyChar, v[1..]) == ExpectKeyChar;
      }
    }
  }

  /** `sortStrings`: every element of the slice is a sort key; the empty slice passes. */
  method SortStrings(xs: seq<string>) returns (ok: bool)
    ensures ok <==> forall i :: 0 <= i < |xs| ==> SortKey(xs[i])
    ensures |xs| == 0 ==> ok
  {
    var i := 0;
    while i < |xs|
      invariant 0 <= i <= |xs|
      invariant forall k :: 0 <= k < i ==> SortKey(xs[k])
    {
      MatchesIffSortKey(xs[i]);
      if !Matches(xs[i]) {
        return false;
      }
      i := i + 1;
    }
    return true;
  }

  /** A field's value as `languageNumberType` sees it by its kind. */
  datatype NumberField = Signed(i: int) | Unsigned(u: nat) | Floating(x: real) | NotNumeric

  /** `languageNumberType`: a numeric value of at least one; anything else fails. */
  function LanguageNumberType(f: NumberField): (ok: bool)
    ensures f.NotNumeric? ==> !ok
    ensures f.Signed? ==> (ok <==> f.i >= 1)
    ensures f.Unsigned? ==> (ok <==> f.u != 0)
    ensures f.Floating? ==> (ok <==> f.x >= 1.0)
  {
    match f
    case Signed(i) => i >= 1
    case Unsigned(u) => u >= 1
    case Floating(x) => x >= 1.0
    case NotNumeric => false
  }
}
