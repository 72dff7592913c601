/**
 * The arithmetic helpers of the template function map and the
 * initialisation guard of internal/util/template/template.go. Go's `int` is
 * taken as 64 bits wide. Reading the working directory, parsing the HTML
 * files and running a template are inputs.
 */
module Template {

  import opened Results
  import opened Numbers

  /** A difference that is a multiple of 2^64 is that multiple of 2^64. */
  lemma WrapMultiple(x: int, r: int) returns (k: int)
    requires (x - r) % TwoTo64 == 0
    ensures x - r == k * TwoTo64
  {
    k := (x - r) / TwoTo64;
  }

  /** Two int64 values that differ by a multiple of 2^64 are equal. */
  lemma SameWrap(x: int, y: int, k: int)
    requires IsInt64(x) && IsInt64(y) && x - y == k * TwoTo64
    ensures x == y
  {
    assert -TwoTo64 < k * TwoTo64 < TwoTo64;
  }

  /** `add`: Go's `int` addition, wrapping around on overflow. */
  function Add(a: int, b: int): (r: int)
    requires IsInt64(a) && IsInt64(b)
    ensures IsInt64(r)
    ensures IsInt64(a + b) ==> r == a + b
    ensures (a + b - r) % TwoTo64 == 0
  {
    Wrap64(a + b)
  }

  /** `sub`: Go's `int` subtraction, wrapping around on overflow. */
  function Sub(a: int, b: int): (r: int)
    requires IsInt64(a) && IsInt64(b)
    ensures IsInt64(r)
    ensures IsInt64(a - b) ==> r == a - b
    ensures (a - b - r) % TwoTo64 == 0
  {
    Wrap64(a - b)
  }

  /** `mul`: Go's `int` multiplication, keeping the low 64 bits. */
  function Mul(a: int, b: int): (r: int)
    requires IsInt64(a) && IsInt64(b)
    ensures IsInt64(r)
    ensures IsInt64(a * b) ==> r == a * b
    ensures (a * b - r) % TwoTo64 == 0
  {
    Wrap64(a * b)
  }

  /** Subtracting what was added gives the value back, overflow or not. */
  lemma SubUndoesAdd(a: int, b: int)
    requires IsInt64(a) && IsInt64(b)
    ensures Sub(Add(a, b), b) == a
  {
    var s := Add(a, b);
    var j := WrapMultiple(a + b, s);
    var i := WrapMultiple(s - b, Sub(s, b));
    SameWrap(a, Sub(s, b), i + j);
  }

  /** Adding what was subtracted gives the value back, overflow or not. */
  lemma AddUndoesSub(a: int, b: int)
    requires IsInt64(a) && IsInt64(b)
    ensures Add(Sub(a, b), b) == a
  {
    var d := Sub(a, b);
    var j := WrapMultiple(a - b, d);
    var i := WrapMultiple(d + b, Add(d, b));
    SameWrap(a, Add(d, b), i + j);
  }

  /** Dividing by one changes nothing, and dividing by at least two at least halves. */
  lemma NatQuoBound(x: nat, y: nat)
    requires y >= 1
    ensures y == 1 ==> NatQuo(x, y) == x
    ensures y >= 2 ==> 2 * NatQuo(x, y) <= x
  {
    var m := x / y;
    assert x == m * y + x % y;
    if y >= 2 {
      assert m * y == m * 2 + m * (y - 2);
    }
  }

  /** A truncated quotient is no larger in magnitude than the dividend, so it fits in int64 except for `MinInt64 / -1`. */
  lemma QuoFits(a: int, b: int)
    requires IsInt64(a) && IsInt64(b) && b != 0
    requires !(a == MinInt64 && b == -1)
    ensures IsInt64(Quo(a, b))
  {
    NatQuoBound(Abs(a), Abs(b));
    if b == 1 {
      assert Quo(a, b) == a;
    } else if b == -1 {
      assert Quo(a, b) == -a;
    }
  }

  /**
   * `div`: zero for a zero divisor, otherwise Go's truncating `int` division,
   * whose one overflow, `MinInt64 / -1`, wraps back to `MinInt64`.
   */
  function Div(a: int, b: int): (r: int)
    requires IsInt64(a) && IsInt64(b)
    ensures IsInt64(r)
    ensures b == 0 ==> r == 0
    ensures b != 0 && !(a == MinInt64 && b == -1) ==> r == Quo(a, b)
    ensures a == MinInt64 && b == -1 ==> r == MinInt64
  {
    if b == 0 then 0
    else if a == MinInt64 && b == -1 then Wrap64(-MinInt64)
    else
      QuoFits(a, b);
      Wrap64(Quo(a, b))
  }

  /**
   * With a non-zero divisor and no overflow, `div` leaves a remainder smaller
   * than the divisor that carries the dividend's sign: it is the quotient
   * rounded toward zero.
   */
  lemma DivTruncates(a: int, b: int)
    requires IsInt64(a) && IsInt64(b) && b != 0
    requires !(a == MinInt64 && b == -1)
    ensures var r := a - b * Div(a, b);
      Abs(r) < Abs(b) && (r == 0 || (r < 0 <==> a < 0))
  {
    assert Div(a, b) == Quo(a, b);
    assert a - b * Quo(a, b) == Rem(a, b);
  }

  /**
   * `percent`: zero for a zero divisor; otherwise the float64 ratio times
   * 100, truncated, which `scaled` stands for.
   */
  function Percent(a: int, b: int, scaled: (int, int) -> int): (r: int)
    requires IsInt64(a) && IsInt64(b)
    ensures b == 0 ==> r == 0
    ensures b != 0 ==> r == scaled(a, b)
  {
    if b == 0 then 0 else scaled(a, b)
  }

  /** With a zero divisor the float computation is never consulted. */
  lemma PercentOfZeroIgnoresRatio(a: int, s1: (int, int) -> int, s2: (int, int) -> int)
    requires IsInt64(a)
    ensures Percent(a, 0, s1) == Percent(a, 0, s2) == 0
  {
  }

  /** The parsed template set: the names of the templates it holds. */
  datatype TemplateSet = TemplateSet(names: set<string>)

  /** What `ParseGlob` did: the templates it added before stopping, and whether it failed. */
  datatype ParseOutcome = ParseOutcome(added: set<string>, failed: bool)

  /**
   * `Init`: when the working directory cannot be read the package variable
   * keeps its value; otherwise a new set is assigned before the files are
   * parsed, so it is in place even when parsing fails.
   */
  function Init(prior: Option<TemplateSet>, workingDir: Result<string, string>, parseGlob: string -> ParseOutcome): (t: Option<TemplateSet>)
    ensures workingDir.Err? ==> t == prior
    ensures workingDir.Ok? ==> t == Some(TemplateSet(parseGlob(workingDir.value).added))
  {
    match workingDir
    case Err(_) => prior
    case Ok(wd) => Some(TemplateSet(parseGlob(wd).added))
  }

  datatype TemplateError = NotInitialized | Undefined(name: string) | ExecutionFailed(detail: string)

  /**
   * `ExecuteTemplate`: an error when no set was ever assigned; otherwise the
   * named template run on the data (`render`), an unknown name being an error
   * of `html/template`.
   */
  function ExecuteTemplate(t: Option<TemplateSet>, name: string, render: string -> Result<string, string>): (r: Result<string, TemplateError>)
    ensures t.None? <==> r == Err(NotInitialized)
    ensures t.Some? && name !in t.value.names ==> r == Err(Undefined(name))
    ensures t.Some? && name in t.value.names ==>
      (r.Ok? <==> render(name).Ok?) && (r.Ok? ==> r.value == render(name).value)
  {
    match t
    case None => Err(NotInitialized)
    case Some(ts) =>
      if name !in ts.names then Err(Undefined(name))
      else match render(name)
        case Ok(out) => Ok(out)
        case Err(e) => Err(ExecutionFailed(e))
  }

  /**
   * Once the working directory has been read, `ExecuteTemplate` never again
   * reports the templates uninitialised, even if every file failed to parse.
   */
  lemma InitWithDirectoryInitialises(
    prior: Option<TemplateSet>, wd: string, parseGlob: string -> ParseOutcome,
    name: string, render: string -> Result<string, string>)
    ensures ExecuteTemplate(Init(prior, Ok(wd), parseGlob), name, render) != Err(NotInitialized)
  {
  }
}
