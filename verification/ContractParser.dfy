/**
 managed_io_contract.cpp: the text form of a managed I/O contract, name=dtype[d0,d1,...],
 with white space allowed around every token.
 */
module ContractParser {

  import opened BufferModel
  import Pool
  import opened TensorLayout

  datatype OnnxDtype = Float | Integer64

  datatype Contract = Contract(name: string, dtype: OnnxDtype, shape: seq<int>)

  // ---------- Trimming

  /** std::isspace of the C locale. */
  predicate IsSpace(c: char) {
    c == ' ' || '\t' <= c <= '\r'
  }

  predicate AllSpace(s: string) {
    forall k :: 0 <= k < |s| ==> IsSpace(s[k])
  }

  function TrimLeft(s: string): string {
    if s != [] && IsSpace(s[0]) then TrimLeft(s[1..]) else s
  }

  function TrimRight(s: string): string {
    if s != [] && IsSpace(s[|s| - 1]) then TrimRight(s[..|s| - 1]) else s
  }

  function Trim(s: string): string {
    TrimRight(TrimLeft(s))
  }

  predicate Trimmed(s: string) {
    s == [] || (!IsSpace(s[0]) && !IsSpace(s[|s| - 1]))
  }

  lemma {:induction false} TrimLeftSplits(s: string) returns (a: string)
    ensures AllSpace(a) && s == a + TrimLeft(s)
    ensures TrimLeft(s) == [] || !IsSpace(TrimLeft(s)[0])
  {
    if s != [] && IsSpace(s[0]) {
      var rest := TrimLeftSplits(s[1..]);
      a := [s[0]] + rest;
      assert s == [s[0]] + s[1..] && [s[0]] + (rest + TrimLeft(s)) == a + TrimLeft(s);
    } else {
      a := [];
    }
  }

  lemma {:induction false} TrimRightSplits(s: string) returns (b: string)
    ensures AllSpace(b) && s == TrimRight(s) + b
    ensures TrimRight(s) == [] || !IsSpace(TrimRight(s)[|TrimRight(s)| - 1])
  {
    if s != [] && IsSpace(s[|s| - 1]) {
      var rest := TrimRightSplits(s[..|s| - 1]);
      b := rest + [s[|s| - 1]];
      assert s == s[..|s| - 1] + [s[|s| - 1]] && (TrimRight(s) + rest) + [s[|s| - 1]] == TrimRight(s) + b;
    } else {
      b := [];
    }
  }

  /** Trimming takes white space off both ends and nothing else. */
  lemma TrimSplits(s: string) returns (a: string, b: string)
    ensures AllSpace(a) && AllSpace(b) && s == a + Trim(s) + b && Trimmed(Trim(s))
  {
    a := TrimLeftSplits(s);
    b := TrimRightSplits(TrimLeft(s));
    assert Trim(s) != [] ==> Trim(s)[0] == TrimLeft(s)[0];
  }

  lemma {:induction false} TrimLeftPadded(a: string, s: string)
    requires AllSpace(a) && (s == [] || !IsSpace(s[0]))
    ensures TrimLeft(a + s) == s
  {
    if a == [] {
      assert a + s == s;
    } else {
      assert (a + s)[1..] == a[1..] + s;
      TrimLeftPadded(a[1..], s);
    }
  }

  lemma {:induction false} TrimRightPadded(s: string, b: string)
    requires AllSpace(b) && (s == [] || !IsSpace(s[|s| - 1]))
    ensures TrimRight(s + b) == s
  {
    if b == [] {
      assert s + b == s;
    } else {
      assert (s + b)[..|s + b| - 1] == s + b[..|b| - 1];
      TrimRightPadded(s, b[..|b| - 1]);
    }
  }

  lemma {:induction false} TrimBlank(a: string)
    requires AllSpace(a)
    ensures TrimLeft(a) == []
  {
    if a == [] {
    } else {
      TrimBlank(a[1..]);
    }
  }

  lemma TrimPadded(a: string, m: string, b: string)
    requires AllSpace(a) && AllSpace(b) && Trimmed(m)
    ensures Trim(a + m + b) == m
  {
    assert a + m + b == a + (m + b);
    if m == [] {
      assert a + (m + b) == a + b;
      TrimBlank(a + b);
    } else {
      TrimLeftPadded(a, m + b);
      TrimRightPadded(m, b);
    }
  }

  // ---------- Splitting at a character

  /** std::string::find from `start`; None is npos. */
  function Find(s: string, c: char, start: nat): (r: Option<nat>)
    requires start <= |s|
    ensures r.Some? ==> start <= r.value < |s| && s[r.value] == c && forall k :: start <= k < r.value ==> s[k] != c
    ensures r.None? ==> forall k :: start <= k < |s| ==> s[k] != c
    decreases |s| - start
  {
    if start == |s| then None else if s[start] == c then Some(start) else Find(s, c, start + 1)
  }

  function Split(s: string, start: nat): seq<string>
    requires start <= |s|
    decreases |s| - start
  {
    var comma := Find(s, ',', start);
    if comma.None? then [s[start..]] else [s[start..comma.value]] + Split(s, comma.value + 1)
  }

  function Join(ts: seq<string>): string {
    if ts == [] then [] else if |ts| == 1 then ts[0] else ts[0] + "," + Join(ts[1..])
  }

  lemma {:induction false} JoinSplit(s: string, start: nat)
    requires start <= |s|
    ensures Join(Split(s, start)) == s[start..] && Split(s, start) != []
    ensures forall k :: 0 <= k < |Split(s, start)| ==> ',' !in Split(s, start)[k]
    decreases |s| - start
  {
    var comma := Find(s, ',', start);
    if comma.Some? {
      JoinSplit(s, comma.value + 1);
      assert Split(s, start)[1..] == Split(s, comma.value + 1);
      assert s[start..comma.value] + "," + s[comma.value + 1..] == s[start..];
    }
  }

  /** The first `c` at or after |p| is the one behind `t`. */
  lemma FindAfter(p: string, t: string, c: char, rest: string)
    requires c !in t
    ensures Find(p + t + [c] + rest, c, |p|) == Some(|p| + |t|)
    ensures (p + t + [c] + rest)[|p|..|p| + |t|] == t && (p + t + [c] + rest)[|p| + |t| + 1..] == rest
  {
    var s := p + t + [c] + rest;
    assert forall k :: |p| <= k < |p| + |t| ==> s[k] == t[k - |p|];
    assert s[|p| + |t|] == c;
  }

  lemma FindNone(p: string, t: string, c: char)
    requires c !in t
    ensures Find(p + t, c, |p|).None?
  {
    assert forall k :: |p| <= k < |p + t| ==> (p + t)[k] == t[k - |p|];
  }

  lemma SplitAfter(p: string, t: string, rest: string)
    requires ',' !in t
    ensures var s := p + t + "," + rest;
            Split(s, |p|) == [t] + Split(s, |p + t + ","|)
  {
    FindAfter(p, t, ',', rest);
  }

  lemma SplitCons(p: string, t: string, rest: string, ts: seq<string>)
    requires ',' !in t && Split(p + t + "," + rest, |p + t + ","|) == ts
    ensures Split(p + (t + "," + rest), |p|) == [t] + ts
  {
    SplitAfter(p, t, rest);
    assert p + (t + "," + rest) == p + t + "," + rest;
  }

  lemma SplitLast(p: string, t: string)
    requires ',' !in t
    ensures Split(p + t, |p|) == [t]
  {
    FindNone(p, t, ',');
    assert (p + t)[|p|..] == t;
  }

  lemma {:induction false} SplitJoin(p: string, ts: seq<string>)
    requires ts != [] && forall k :: 0 <= k < |ts| ==> ',' !in ts[k]
    ensures Split(p + Join(ts), |p|) == ts
    decreases |ts|
  {
    if |ts| == 1 {
      SplitLast(p, ts[0]);
    } else {
      SplitJoin(p + ts[0] + ",", ts[1..]);
      SplitCons(p, ts[0], Join(ts[1..]), ts[1..]);
      assert [ts[0]] + ts[1..] == ts;
    }
  }

  // ---------- Numbers

  predicate IsDigit(c: char) { '0' <= c <= '9' }

  predicate AllDigits(s: string) {
    forall k :: 0 <= k < |s| ==> IsDigit(s[k])
  }

  function DigitsValue(s: string): nat
    requires AllDigits(s)
  {
    if s == [] then 0 else 10 * DigitsValue(s[..|s| - 1]) + (s[|s| - 1] - '0') as nat
  }

  function LeadingDigits(s: string): (n: nat)
    ensures n <= |s| && AllDigits(s[..n]) && (n < |s| ==> !IsDigit(s[n]))
  {
    if s != [] && IsDigit(s[0]) then
      var n := 1 + LeadingDigits(s[1..]);
      assert s[..n] == [s[0]] + s[1..][..n - 1];
      n
    else 0
  }

  /** std::stoll in base 10, for a text that does not begin with white space: the number and
      how many characters it took; None stands for its exceptions. */
  function Stoll(t: string): (r: Option<(int, nat)>)
    ensures r.Some? ==> r.value.1 <= |t|
  {
    var sign: nat := if t != [] && (t[0] == '+' || t[0] == '-') then 1 else 0;
    var n := LeadingDigits(t[sign..]);
    if n == 0 then None
    else
      var v: int := DigitsValue(t[sign..][..n]);
      var x := if sign == 1 && t[0] == '-' then -v else v;
      if -(INT64_MAX as int) - 1 <= x <= INT64_MAX then Some((x, sign + n)) else None
  }

  /** The value of a token that is accepted as a dimension. */
  function Dimension(token: string): (r: Option<int>)
    ensures r.Some? ==> 0 < r.value <= INT64_MAX && token != []
  {
    if token == [] then None
    else
      var p := Stoll(token);
      if p.None? || p.value.1 != |token| || p.value.0 <= 0 then None else Some(p.value.0)
  }

  /** Exactly these: an optional plus sign and digits with a value from 1 to 2^63 - 1. */
  lemma DimensionTexts(t: string, d: int)
    ensures Dimension(t) == Some(d) <==>
            var digits := if t != [] && t[0] == '+' then t[1..] else t;
            digits != [] && AllDigits(digits) && d == DigitsValue(digits) && 0 < d <= INT64_MAX
  {
    var digits := if t != [] && t[0] == '+' then t[1..] else t;
    if t != [] {
      var sign := if t[0] == '+' || t[0] == '-' then 1 else 0;
      var rest := t[sign..];
      var n := LeadingDigits(rest);
      if n == |rest| { assert rest[..n] == rest; }
      if digits != [] && AllDigits(digits) {
        assert digits == rest;
        assert n == |rest|;
      }
      if Dimension(t) == Some(d) {
        assert n == |rest| && t[0] != '-';
      }
    }
  }

  /** The canonical decimal text. */
  function Decimal(n: nat): (s: string)
    ensures s != [] && AllDigits(s) && DigitsValue(s) == n
  {
    var last := [(n % 10) as char + '0'];
    if n < 10 then
      assert last[..0] == [];
      last
    else
      var s := Decimal(n / 10) + last;
      assert s[..|s| - 1] == Decimal(n / 10);
      s
  }

  /** An accepted token has no comma and no white space in it. */
  lemma DimensionIsPlain(t: string)
    requires Dimension(t).Some?
    ensures ',' !in t && ']' !in t && '=' !in t && Trimmed(t) && t != []
  {
    DimensionTexts(t, Dimension(t).value);
    var digits := if t[0] == '+' then t[1..] else t;
    forall k | 0 <= k < |t|
      ensures IsDigit(t[k]) || t[k] == '+'
    {
      assert t[k] == (if t[0] == '+' then (if k == 0 then '+' else digits[k - 1]) else digits[k]);
    }
  }

  // ---------- Shapes

  /** The dimensions of the tokens, or None if one of them is refused. */
  function Dimensions(tokens: seq<string>): Option<seq<int>> {
    if tokens == [] then Some([])
    else
      var d := Dimension(Trim(tokens[0]));
      var rest := Dimensions(tokens[1..]);
      if d.None? || rest.None? then None else Some([d.value] + rest.value)
  }

  predicate Bracketed(text: string) {
    |text| >= 2 && text[0] == '[' && text[|text| - 1] == ']'
  }

  function ShapeOf(text: string): Option<seq<int>> {
    if !Bracketed(text) || |text| == 2 then None else Dimensions(Split(text[1..|text| - 1], 0))
  }

  /** What is parsed so far, in front of what the rest gives. */
  function Prepend(done: seq<int>, rest: Option<seq<int>>): Option<seq<int>> {
    if rest.None? then None else Some(done + rest.value)
  }

  lemma PrependStep(done: seq<int>, tokens: seq<string>)
    requires tokens != [] && Dimension(Trim(tokens[0])).Some?
    ensures Prepend(done, Dimensions(tokens)) ==
            Prepend(done + [Dimension(Trim(tokens[0])).value], Dimensions(tokens[1..]))
  {
    var d, rest := Dimension(Trim(tokens[0])).value, Dimensions(tokens[1..]);
    if rest.Some? {
      assert done + ([d] + rest.value) == (done + [d]) + rest.value;
    }
  }

  /** The cursor loop over the body. */
  method ParseShape(text: string) returns (r: Option<seq<int>>)
    ensures r == ShapeOf(text)
  {
    if |text| < 2 || text[0] != '[' || text[|text| - 1] != ']' {
      return None;
    }
    var body := text[1..|text| - 1];
    if body == [] {
      return None;
    }
    r := ParseBody(body);
  }

  /** What the loop knows: `shape` is read and `tokens` are still to be read. */
  predicate Reading(all: Option<seq<int>>, shape: seq<int>, tokens: seq<string>) {
    all == Prepend(shape, Dimensions(tokens))
  }

  lemma ReadToken(all: Option<seq<int>>, shape: seq<int>, tokens: seq<string>)
    requires Reading(all, shape, tokens) && tokens != []
    ensures var d := Dimension(Trim(tokens[0]));
            if d.None? then all == None else Reading(all, shape + [d.value], tokens[1..])
  {
    if Dimension(Trim(tokens[0])).Some? { PrependStep(shape, tokens); }
  }

  lemma ReadAll(all: Option<seq<int>>, shape: seq<int>)
    ensures Reading(all, shape, []) <==> all == Some(shape)
  {
    assert shape + [] == shape;
  }

  lemma ReadNothing(tokens: seq<string>)
    ensures Reading(Dimensions(tokens), [], tokens)
  {
    var all := Dimensions(tokens);
    if all.Some? { assert [] + all.value == all.value; }
  }

  method ParseBody(body: string) returns (r: Option<seq<int>>)
    ensures r == Dimensions(Split(body, 0))
  {
    var shape: seq<int>, start, more := [], 0, true;
    ghost var tokens := Split(body, 0);
    ghost var all := Dimensions(tokens);
    ReadNothing(tokens);
    while more
      invariant start <= |body| && tokens == if more then Split(body, start) else []
      invariant Reading(all, shape, tokens)
      decreases more, |body| - start
    {
      var comma := Find(body, ',', start);
      var token := Trim(if comma.None? then body[start..] else body[start..comma.value]);
      assert token == Trim(tokens[0]);
      var dimension := Dimension(token);
      ReadToken(all, shape, tokens);
      if dimension.None? {
        return None;
      }
      shape := shape + [dimension.value];
      tokens := tokens[1..];
      if comma.None? {
        more := false;
      } else {
        start := comma.value + 1;
      }
    }
    ReadAll(all, shape);
    r := Some(shape);
  }

  // ---------- One entry

  function DtypeText(d: OnnxDtype): string {
    match d
    case Float => "float32"
    case Integer64 => "int64"
  }

  function ParseDtype(text: string): (r: Option<OnnxDtype>)
    ensures forall d :: r == Some(d) <==> text == DtypeText(d)
  {
    if text == "float32" then Some(Float) else if text == "int64" then Some(Integer64) else None
  }

  function Entry(spec: string): Option<Contract> {
    var equals := Find(spec, '=', 0);
    if equals.None? || equals.value == 0 || Find(spec, '=', equals.value + 1).Some? then None
    else EntryFrom(Trim(spec[..equals.value]), Trim(spec[equals.value + 1..]))
  }

  function EntryFrom(name: string, typeAndShape: string): Option<Contract> {
    var bracket := Find(typeAndShape, '[', 0);
    if name == [] || bracket.None? then None
    else
      var dtype := ParseDtype(Trim(typeAndShape[..bracket.value]));
      var shape := ShapeOf(typeAndShape[bracket.value..]);
      if dtype.None? || shape.None? then None else Some(Contract(name, dtype.value, shape.value))
  }

  predicate Distinct(cs: seq<Contract>) {
    forall i, j :: 0 <= i < j < |cs| ==> cs[i].name != cs[j].name
  }

  /** `specs` is read as the contracts `cs`. */
  predicate Means(specs: seq<string>, cs: seq<Contract>) {
    |cs| == |specs| > 0 && Distinct(cs) && forall k :: 0 <= k < |specs| ==> Entry(specs[k]) == Some(cs[k])
  }

  // ---------- The text form

  /** How a dimension is written: the text of the number and the white space around it. */
  datatype DimText = DimText(before: string, number: string, after: string)
  {
    function Token(): string { before + number + after }
  }

  datatype Layout = Layout(beforeName: string, afterName: string, beforeType: string, afterType: string,
      dims: seq<DimText>, afterShape: string)

  function Tokens(dims: seq<DimText>): seq<string> {
    seq(|dims|, k requires 0 <= k < |dims| => dims[k].Token())
  }

  /** `dims` writes the numbers of `shape`. */
  predicate SpellsShape(dims: seq<DimText>, shape: seq<int>) {
    && |dims| == |shape|
    && forall k :: 0 <= k < |dims| ==>
                     AllSpace(dims[k].before) && AllSpace(dims[k].after) && Dimension(dims[k].number) == Some(shape[k])
  }

  predicate Spells(l: Layout, c: Contract) {
    && AllSpace(l.beforeName) && AllSpace(l.afterName) && AllSpace(l.beforeType) && AllSpace(l.afterType)
        && AllSpace(l.afterShape)
    && l.dims != [] && SpellsShape(l.dims, c.shape)
  }

  predicate ValidName(name: string) {
    name != [] && Trimmed(name) && '=' !in name
  }

  function RenderShape(dims: seq<DimText>): string {
    "[" + Join(Tokens(dims)) + "]"
  }

  function Render(c: Contract, l: Layout): string {
    l.beforeName + c.name + l.afterName + "="
    + (l.beforeType + (DtypeText(c.dtype) + l.afterType + RenderShape(l.dims)) + l.afterShape)
  }

  // ---------- Rendering and parsing are inverse

  lemma TokenFacts(d: DimText, v: int)
    requires AllSpace(d.before) && AllSpace(d.after) && Dimension(d.number) == Some(v)
    ensures Dimension(Trim(d.Token())) == Some(v)
    ensures ',' !in d.Token() && '=' !in d.Token()
  {
    DimensionIsPlain(d.number);
    TrimPadded(d.before, d.number, d.after);
    forall k | 0 <= k < |d.Token()|
      ensures d.Token()[k] != ',' && d.Token()[k] != '='
    {
      if k < |d.before| {
        assert d.Token()[k] == d.before[k];
      } else if k < |d.before| + |d.number| {
        assert d.Token()[k] == d.number[k - |d.before|];
        assert d.number[k - |d.before|] in d.number;
      } else {
        assert d.Token()[k] == d.after[k - |d.before| - |d.number|];
      }
    }
  }

  lemma {:induction false} DimensionsOfTokens(dims: seq<DimText>, shape: seq<int>)
    requires SpellsShape(dims, shape)
    ensures Dimensions(Tokens(dims)) == Some(shape)
  {
    if dims == [] {
      assert Tokens(dims) == [];
    } else {
      TokenFacts(dims[0], shape[0]);
      DimensionsOfTokens(dims[1..], shape[1..]);
      assert Tokens(dims)[1..] == Tokens(dims[1..]);
      assert [shape[0]] + shape[1..] == shape;
    }
  }

  lemma TokensAvoid(dims: seq<DimText>, shape: seq<int>)
    requires SpellsShape(dims, shape)
    ensures forall k :: 0 <= k < |Tokens(dims)| ==> ',' !in Tokens(dims)[k]
    ensures forall k :: 0 <= k < |Tokens(dims)| ==> '=' !in Tokens(dims)[k]
  {
    forall k | 0 <= k < |dims|
      ensures ',' !in Tokens(dims)[k] && '=' !in Tokens(dims)[k]
    {
      TokenFacts(dims[k], shape[k]);
    }
  }

  lemma {:induction false} JoinAvoids(ts: seq<string>, c: char)
    requires c != ',' && forall k :: 0 <= k < |ts| ==> c !in ts[k]
    ensures c !in Join(ts)
  {
    if |ts| <= 1 {
    } else {
      JoinAvoids(ts[1..], c);
    }
  }

  lemma {:induction false} JoinNonempty(ts: seq<string>)
    requires ts != [] && ts[0] != []
    ensures Join(ts) != []
  {
    if |ts| == 1 {
    } else {
    }
  }

  lemma BodyRoundTrip(dims: seq<DimText>, shape: seq<int>)
    requires dims != [] && SpellsShape(dims, shape)
    ensures Dimensions(Split(Join(Tokens(dims)), 0)) == Some(shape)
  {
    DimensionsOfTokens(dims, shape);
    TokensAvoid(dims, shape);
    SplitJoin([], Tokens(dims));
    assert [] + Join(Tokens(dims)) == Join(Tokens(dims));
  }

  lemma BodyIsPlain(dims: seq<DimText>, shape: seq<int>)
    requires dims != [] && SpellsShape(dims, shape)
    ensures Join(Tokens(dims)) != [] && '=' !in Join(Tokens(dims))
  {
    TokensAvoid(dims, shape);
    JoinAvoids(Tokens(dims), '=');
    DimensionIsPlain(dims[0].number);
    assert Tokens(dims)[0] != [];
    JoinNonempty(Tokens(dims));
  }

  lemma ShapeRoundTrip(dims: seq<DimText>, shape: seq<int>)
    requires dims != [] && SpellsShape(dims, shape)
    ensures ShapeOf(RenderShape(dims)) == Some(shape) && '=' !in RenderShape(dims)
  {
    BodyRoundTrip(dims, shape);
    BodyIsPlain(dims, shape);
    assert RenderShape(dims)[1..|RenderShape(dims)| - 1] == Join(Tokens(dims));
  }

  lemma SpacesAvoid(s: string, c: char)
    requires AllSpace(s) && !IsSpace(c)
    ensures c !in s
  {}

  /** A text with one equals sign is read as two trimmed halves. */
  lemma EntryOfHalves(left: string, right: string)
    requires left != [] && '=' !in left && '=' !in right
    ensures Entry(left + "=" + right) == EntryFrom(Trim(left), Trim(right))
  {
    var s := left + "=" + right;
    FindAfter([], left, '=', right);
    assert [] + left + "=" + right == s;
    FindNone(left + "=", right, '=');
    assert s[..|left|] == left && s[|left| + 1..] == right;
  }

  /** Reading what was written gives the contract back, whatever the white space. */
  lemma EntryRoundTrip(c: Contract, l: Layout)
    requires ValidName(c.name) && Spells(l, c)
    ensures Entry(Render(c, l)) == Some(c)
  {
    var left := l.beforeName + c.name + l.afterName;
    var core := DtypeText(c.dtype) + l.afterType + RenderShape(l.dims);
    var right := l.beforeType + core + l.afterShape;
    HalvesAvoidEquals(c, l);
    EntryOfHalves(left, right);
    TrimPadded(l.beforeName, c.name, l.afterName);
    CoreIsTrimmed(c, l);
    TrimPadded(l.beforeType, core, l.afterShape);
    ShapeRoundTrip(l.dims, c.shape);
    TypeAndShape(c.dtype, l.afterType, RenderShape(l.dims));
  }

  lemma ConcatAvoids(a: string, b: string, c: char)
    requires c !in a && c !in b
    ensures c !in a + b
  {}

  lemma PaddedAvoids(a: string, m: string, b: string)
    requires AllSpace(a) && AllSpace(b) && '=' !in m
    ensures '=' !in a + m + b
  {
    SpacesAvoid(a, '=');
    SpacesAvoid(b, '=');
    ConcatAvoids(a, m, '=');
    ConcatAvoids(a + m, b, '=');
  }

  lemma CoreAvoids(dtype: OnnxDtype, pad: string, shape: string)
    requires AllSpace(pad) && '=' !in shape
    ensures '=' !in DtypeText(dtype) + pad + shape
  {
    assert '=' !in DtypeText(dtype);
    SpacesAvoid(pad, '=');
    ConcatAvoids(DtypeText(dtype), pad, '=');
    ConcatAvoids(DtypeText(dtype) + pad, shape, '=');
  }

  lemma HalvesAvoidEquals(c: Contract, l: Layout)
    requires ValidName(c.name) && Spells(l, c)
    ensures '=' !in l.beforeName + c.name + l.afterName
    ensures '=' !in l.beforeType + (DtypeText(c.dtype) + l.afterType + RenderShape(l.dims)) + l.afterShape
  {
    ShapeRoundTrip(l.dims, c.shape);
    PaddedAvoids(l.beforeName, c.name, l.afterName);
    CoreAvoids(c.dtype, l.afterType, RenderShape(l.dims));
    PaddedAvoids(l.beforeType, DtypeText(c.dtype) + l.afterType + RenderShape(l.dims), l.afterShape);
  }

  lemma CoreIsTrimmed(c: Contract, l: Layout)
    ensures Trimmed(DtypeText(c.dtype) + l.afterType + RenderShape(l.dims))
  {
    var core := DtypeText(c.dtype) + l.afterType + RenderShape(l.dims);
    assert core[0] == DtypeText(c.dtype)[0] && core[|core| - 1] == ']';
  }

  lemma TypeAndShape(d: OnnxDtype, pad: string, shape: string)
    requires AllSpace(pad) && shape != [] && shape[0] == '['
    ensures var core := DtypeText(d) + pad + shape;
            var bracket := Find(core, '[', 0);
            bracket == Some(|DtypeText(d) + pad|) && core[bracket.value..] == shape
                && Trim(core[..bracket.value]) == DtypeText(d)
  {
    var p := DtypeText(d) + pad;
    SpacesAvoid(pad, '[');
    assert '[' !in p;
    assert p + shape == [] + p + ['['] + shape[1..];
    FindAfter([], p, '[', shape[1..]);
    assert (p + shape)[..|p|] == p && (p + shape)[|p|..] == shape;
    TrimPadded([], DtypeText(d), pad);
    assert [] + DtypeText(d) + pad == p;
  }

  lemma TokensCons(d: DimText, rest: seq<DimText>)
    ensures Tokens([d] + rest) == [d.Token()] + Tokens(rest)
  {}

  lemma SpellsCons(d: DimText, rest: seq<DimText>, v: int, shape: seq<int>)
    requires AllSpace(d.before) && AllSpace(d.after) && Dimension(d.number) == Some(v) && SpellsShape(rest, shape)
    ensures SpellsShape([d] + rest, [v] + shape)
  {}

  lemma {:induction false} DimensionsHaveTexts(tokens: seq<string>, shape: seq<int>) returns (dims: seq<DimText>)
    requires Dimensions(tokens) == Some(shape)
    ensures SpellsShape(dims, shape) && Tokens(dims) == tokens
  {
    if tokens == [] {
      dims := [];
    } else {
      var a, b := TrimSplits(tokens[0]);
      var rest := DimensionsHaveTexts(tokens[1..], shape[1..]);
      var d := DimText(a, Trim(tokens[0]), b);
      SpellsCons(d, rest, shape[0], shape[1..]);
      TokensCons(d, rest);
      dims := [d] + rest;
      assert [shape[0]] + shape[1..] == shape && [tokens[0]] + tokens[1..] == tokens;
    }
  }

  lemma BodyHasText(body: string, shape: seq<int>) returns (dims: seq<DimText>)
    requires Dimensions(Split(body, 0)) == Some(shape)
    ensures dims != [] && SpellsShape(dims, shape) && body == Join(Tokens(dims))
  {
    JoinSplit(body, 0);
    dims := DimensionsHaveTexts(Split(body, 0), shape);
    assert body[0..] == body;
  }

  lemma Unbracket(text: string)
    requires Bracketed(text)
    ensures text == "[" + text[1..|text| - 1] + "]"
  {}

  lemma ShapeHasText(text: string, shape: seq<int>) returns (dims: seq<DimText>)
    requires ShapeOf(text) == Some(shape)
    ensures dims != [] && SpellsShape(dims, shape) && text == RenderShape(dims)
  {
    dims := BodyHasText(text[1..|text| - 1], shape);
    Unbracket(text);
  }

  /** The type and shape that were read, as they were written. */
  lemma RestIsRendering(name: string, rest: string, c: Contract) returns (pad: string, dims: seq<DimText>)
    requires EntryFrom(name, rest) == Some(c) && Trimmed(rest)
    ensures AllSpace(pad) && dims != [] && SpellsShape(dims, c.shape) && c.name == name
    ensures rest == DtypeText(c.dtype) + pad + RenderShape(dims)
  {
    var k := Find(rest, '[', 0).value;
    var x, y := TrimSplits(rest[..k]);
    dims := ShapeHasText(rest[k..], c.shape);
    assert Trim(rest[..k]) == DtypeText(c.dtype);
    NoLeadingSpace(rest, x, DtypeText(c.dtype), y, k);
    pad := y;
    Reassemble(rest, k, x, DtypeText(c.dtype), y);
  }

  lemma Reassemble(rest: string, k: nat, x: string, m: string, y: string)
    requires k <= |rest| && rest[..k] == x + m + y && x == []
    ensures rest == m + y + rest[k..]
  {
    assert rest == rest[..k] + rest[k..];
    assert x + m + y == m + y;
  }

  /** The type text of a trimmed rest has no white space in front. */
  lemma NoLeadingSpace(rest: string, x: string, m: string, y: string, k: nat)
    requires k <= |rest| && rest[..k] == x + m + y && AllSpace(x) && Trimmed(rest) && m != []
    ensures x == []
  {
    assert !IsSpace(rest[..k][0]);
  }

  lemma EntrySplits(spec: string, c: Contract) returns (left: string, right: string)
    requires Entry(spec) == Some(c)
    ensures spec == left + "=" + right && '=' !in left && EntryFrom(Trim(left), Trim(right)) == Some(c)
  {
    var e := Find(spec, '=', 0).value;
    left, right := spec[..e], spec[e + 1..];
  }

  /** And nothing else is accepted: an accepted text is a rendering of its result. */
  lemma EntryIsRendering(spec: string, c: Contract) returns (l: Layout)
    requires Entry(spec) == Some(c)
    ensures ValidName(c.name) && Spells(l, c) && spec == Render(c, l)
  {
    var left, right := EntrySplits(spec, c);
    var a, b := TrimSplits(left);
    var p, q := TrimSplits(right);
    var pad, dims := RestIsRendering(Trim(left), Trim(right), c);
    l := Layout(a, b, p, pad, dims, q);
    NameIsClean(left, a, c.name, b);
  }

  lemma NameIsClean(left: string, a: string, name: string, b: string)
    requires left == a + name + b && '=' !in left
    ensures '=' !in name
  {
    assert forall i :: 0 <= i < |name| ==> name[i] == left[|a| + i];
  }

  /** `spec` is a way to write `c`, whose name can be written. */
  ghost predicate Writes(spec: string, c: Contract) {
    ValidName(c.name) && exists l :: Spells(l, c) && spec == Render(c, l)
  }

  /** The language of contracts: a text means `c` exactly when it is a rendering of `c`. */
  lemma EntryLanguage(spec: string, c: Contract)
    ensures Entry(spec) == Some(c) <==> Writes(spec, c)
  {
    if Entry(spec) == Some(c) {
      var l := EntryIsRendering(spec, c);
    } else if Writes(spec, c) {
      var l :| Spells(l, c) && spec == Render(c, l);
      EntryRoundTrip(c, l);
    }
  }

  /** `r` is the contract that `spec` writes, or None if there is none. */
  ghost predicate IsReading(spec: string, r: Option<Contract>) {
    forall c {:trigger Writes(spec, c)} :: r == Some(c) <==> Writes(spec, c)
  }

  lemma EntryIsReading(spec: string)
    ensures IsReading(spec, Entry(spec))
  {
    forall c
      ensures Entry(spec) == Some(c) <==> Writes(spec, c)
    {
      EntryLanguage(spec, c);
    }
  }

  /** The name and what follows the equals sign, both trimmed. */
  method ParseHalves(name: string, typeAndShape: string) returns (r: Option<Contract>)
    ensures r == EntryFrom(name, typeAndShape)
  {
    if name == [] {
      return None;
    }
    var bracket := Find(typeAndShape, '[', 0);
    if bracket.None? {
      return None;
    }
    var dtype := ParseDtype(Trim(typeAndShape[..bracket.value]));
    if dtype.None? {
      return None;
    }
    var shape := ParseShape(typeAndShape[bracket.value..]);
    if shape.None? {
      return None;
    }
    r := Some(Contract(name, dtype.value, shape.value));
  }

  /** The accepted texts and what they are read as: every rendering of a contract with a
      usable name is read as that contract, and nothing else is accepted. */
  method ParseEntry(spec: string) returns (r: Option<Contract>)
    ensures IsReading(spec, r)
  {
    r := None;
    var equals := Find(spec, '=', 0);
    if equals.Some? && equals.value != 0 && Find(spec, '=', equals.value + 1).None? {
      r := ParseHalves(Trim(spec[..equals.value]), Trim(spec[equals.value + 1..]));
    }
    assert r == Entry(spec);
    EntryIsReading(spec);
  }

  method CheckUniqueNames(cs: seq<Contract>) returns (ok: bool)
    ensures ok <==> Distinct(cs)
  {
    var seen: set<string> := {};
    for i := 0 to |cs|
      invariant Distinct(cs[..i])
      invariant forall n :: n in seen <==> exists k :: 0 <= k < i && cs[k].name == n
    {
      if cs[i].name in seen {
        return false;
      }
      seen := seen + {cs[i].name};
    }
    assert cs[..|cs|] == cs;
    ok := true;
  }

  lemma EntryOfWritten(spec: string, r: Option<Contract>)
    requires IsReading(spec, r)
    ensures r == Entry(spec)
  {
    if r.Some? {
      EntryLanguage(spec, r.value);
    } else if Entry(spec).Some? {
      EntryLanguage(spec, Entry(spec).value);
    }
  }

  ghost predicate AllRead(specs: seq<string>, cs: seq<Contract>) {
    |cs| == |specs| && forall k :: 0 <= k < |specs| ==> IsReading(specs[k], Some(cs[k]))
  }

  ghost predicate SomeUnread(specs: seq<string>) {
    exists k :: 0 <= k < |specs| && IsReading(specs[k], None)
  }

  lemma AllReadSnoc(specs: seq<string>, cs: seq<Contract>, spec: string, c: Contract)
    requires AllRead(specs, cs) && IsReading(spec, Some(c))
    ensures AllRead(specs + [spec], cs + [c])
  {}

  method ParseEntries(specs: seq<string>) returns (r: Option<seq<Contract>>)
    ensures if r.Some? then AllRead(specs, r.value) else SomeUnread(specs)
  {
    var cs: seq<Contract> := [];
    for i := 0 to |specs|
      invariant AllRead(specs[..i], cs)
    {
      var c := ParseEntry(specs[i]);
      if c.None? {
        return None;
      }
      AllReadSnoc(specs[..i], cs, specs[i], c.value);
      assert specs[..i + 1] == specs[..i] + [specs[i]];
      cs := cs + [c.value];
    }
    assert specs[..|specs|] == specs;
    r := Some(cs);
  }

  lemma AllReadMeans(specs: seq<string>, cs: seq<Contract>)
    requires AllRead(specs, cs)
    ensures forall other :: Means(specs, other) <==> other == cs && specs != [] && Distinct(cs)
  {
    forall k | 0 <= k < |specs|
      ensures Entry(specs[k]) == Some(cs[k])
    {
      EntryOfWritten(specs[k], Some(cs[k]));
    }
    forall other
      ensures Means(specs, other) <==> other == cs && specs != [] && Distinct(cs)
    {
      if Means(specs, other) {
        forall k | 0 <= k < |specs|
          ensures other[k] == cs[k]
        {
          assert Entry(specs[k]) == Some(other[k]);
        }
        assert other == cs;
      }
    }
  }

  lemma UnreadMeansNothing(specs: seq<string>)
    requires SomeUnread(specs)
    ensures forall cs :: !Means(specs, cs)
  {
    var k :| 0 <= k < |specs| && IsReading(specs[k], None);
    EntryOfWritten(specs[k], None);
  }

  method ParseContracts(specs: seq<string>) returns (r: Option<seq<Contract>>)
    ensures forall cs :: r == Some(cs) <==> Means(specs, cs)
  {
    if specs == [] {
      return None;
    }
    var cs := ParseEntries(specs);
    if cs.None? {
      UnreadMeansNothing(specs);
      return None;
    }
    AllReadMeans(specs, cs.value);
    var ok := CheckUniqueNames(cs.value);
    r := if ok then cs else None;
  }

  /** A list of contracts with distinct names is read back from any way to write it. */
  lemma ListRoundTrip(cs: seq<Contract>, ls: seq<Layout>)
    requires cs != [] && |ls| == |cs| && Distinct(cs)
    requires forall k :: 0 <= k < |cs| ==> ValidName(cs[k].name) && Spells(ls[k], cs[k])
    ensures Means(seq(|cs|, k requires 0 <= k < |cs| => Render(cs[k], ls[k])), cs)
  {
    forall k | 0 <= k < |cs|
      ensures Entry(Render(cs[k], ls[k])) == Some(cs[k])
    {
      EntryRoundTrip(cs[k], ls[k]);
    }
  }

  predicate ValidContract(c: Contract) {
    ValidName(c.name) && c.shape != [] && forall k :: 0 <= k < |c.shape| ==> 0 < c.shape[k] <= INT64_MAX
  }

  lemma EntryIsValid(spec: string, c: Contract)
    requires Entry(spec) == Some(c)
    ensures ValidContract(c)
  {
    var l := EntryIsRendering(spec, c);
    forall k | 0 <= k < |c.shape|
      ensures 0 < c.shape[k] <= INT64_MAX
    {
      assert Dimension(l.dims[k].number) == Some(c.shape[k]);
    }
  }

  /** Whatever is accepted has positive ranks, positive dimensions and distinct usable names. */
  lemma AcceptedIsValid(specs: seq<string>, cs: seq<Contract>)
    requires Means(specs, cs)
    ensures Distinct(cs) && forall k :: 0 <= k < |cs| ==> ValidContract(cs[k])
  {
    forall k | 0 <= k < |cs|
      ensures ValidContract(cs[k])
    {
      EntryIsValid(specs[k], cs[k]);
    }
  }

  function DecimalDims(shape: seq<int>): seq<DimText>
    requires forall k :: 0 <= k < |shape| ==> shape[k] >= 0
  {
    seq(|shape|, k requires 0 <= k < |shape| => DimText("", Decimal(shape[k]), ""))
  }

  function Canonical(c: Contract): string
    requires ValidContract(c)
  {
    Render(c, Layout("", "", "", "", DecimalDims(c.shape), ""))
  }

  /** Every valid contract has a text, the canonical one among others. */
  lemma CanonicalRoundTrip(c: Contract)
    requires ValidContract(c)
    ensures Entry(Canonical(c)) == Some(c)
  {
    forall k | 0 <= k < |c.shape|
      ensures Dimension(Decimal(c.shape[k])) == Some(c.shape[k])
    {
      var t := Decimal(c.shape[k]);
      assert IsDigit(t[0]);
      DimensionTexts(t, c.shape[k]);
    }
    EntryRoundTrip(c, Layout("", "", "", "", DecimalDims(c.shape), ""));
  }

  // ---------- Sizes

  /** ManagedTensorByteSize, for contracts as they come out of the parser or not. */
  method ManagedTensorByteSize(c: Contract) returns (r: Result<nat>)
    requires forall k :: 0 <= k < |c.shape| ==> c.shape[k] <= INT64_MAX
    ensures Positive(c.shape) ==>
              var element := if c.dtype == Float then 4 else 8;
              r == if Product(c.shape) * element > Pool.SIZE_MAX then Err(TooLarge) else Ok(Product(c.shape) * element)
    ensures r.Ok? ==> Positive(c.shape)
  {
    var elements: nat := 1;
    for n := 0 to |c.shape|
      invariant FitsUpTo(c.shape, n) && elements == Product(c.shape[..n]) >= 1
      invariant forall k :: 0 <= k < n ==> c.shape[k] > 0
    {
      // The second test cannot hold of a 64-bit dimension.
      if c.shape[n] <= 0 || c.shape[n] > Pool.SIZE_MAX {
        return Err(BadShape);
      }
      assert c.shape[..n + 1] == c.shape[..n] + [c.shape[n]];
      ProductSnoc(c.shape[..n], c.shape[n]);
      Pool.QuotientTest(elements, c.shape[n], Pool.SIZE_MAX);
      if elements > Pool.SIZE_MAX / c.shape[n] {
        FirstTooLarge(c.shape, n, if c.dtype == Float then 4 else 8);
        return Err(TooLarge);
      }
      elements := elements * c.shape[n];
      ProductPositive(c.shape[..n + 1]);
    }
    assert c.shape[..|c.shape|] == c.shape;
    var element := if c.dtype == Float then 4 else 8;
    Pool.QuotientTest(elements, element, Pool.SIZE_MAX);
    if elements > Pool.SIZE_MAX / element {
      return Err(TooLarge);
    }
    r := Ok(elements * element);
  }

  lemma FirstTooLarge(shape: seq<int>, n: nat, element: nat)
    requires n < |shape| && Positive(shape[..n]) && shape[n] > 0 && element >= 1
    requires Product(shape[..n + 1]) > Pool.SIZE_MAX
    ensures Positive(shape) ==> Product(shape) * element > Pool.SIZE_MAX
  {
    if Positive(shape) {
      ProductGrows(shape, n + 1);
      ElementOnlyGrows(Product(shape), element);
    }
  }
}
