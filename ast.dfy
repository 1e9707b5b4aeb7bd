/** The syntax tree of a program and the transformer of src/arpeggio/arp_ast.py
    that builds it from parse-tree tokens. A duration in the tree is a whole
    number of sixteenth notes. */
module ArpAst {
  import opened Wrappers
  import Seqs

  /** A configuration value: a flag, an integer, a decimal number or a word. */
  datatype Value = VBool(b: bool) | VInt(i: int) | VFloat(f: real) | VStr(s: string)

  type Config = map<string, Value>

  /** A symbol of a line: continue the previous note, rest, or play a
      degree at an octave offset. */
  datatype Symbol = Continue | Rest | Interval(value: int, octave: int)

  /** A symbol with its duration in sixteenth notes. */
  datatype Entry = Entry(symbol: Symbol, sixteenths: nat)
  {
    /** The duration as a fraction of a whole note. */
    function Duration(): real { sixteenths as real / 16.0 }
  }

  datatype Track = Track(config: Config, lines: seq<seq<Entry>>)

  datatype Song = Song(config: Config, tracks: seq<Track>)

  /** `_ToAst.config`: one directive; a directive without a value is a flag
      set to True. */
  function ConfigEntry(k: string, v: Option<Value>): (r: Config)
    ensures r.Keys == {k}
    ensures v.None? ==> r[k] == VBool(true)
    ensures v.Some? ==> r[k] == v.value
  {
    map[k := if v.Some? then v.value else VBool(true)]
  }

  /** `_ToAst.octave`: the four octave marks; any other raises KeyError. */
  function Octave(v: string): (r: Result<int>)
    ensures r.Ok? <==> v in {"_", "-", "+", "*"}
    ensures r.Err? ==> r.error == KeyError
  {
    if v == "_" then Ok(-2)
    else if v == "-" then Ok(-1)
    else if v == "+" then Ok(1)
    else if v == "*" then Ok(2)
    else Err(KeyError)
  }

  /** The mark that writes each octave offset. */
  function OctaveMark(n: int): (r: Option<string>)
    ensures r.Some? <==> n in {-2, -1, 1, 2}
  {
    if n == -2 then Some("_")
    else if n == -1 then Some("-")
    else if n == 1 then Some("+")
    else if n == 2 then Some("*")
    else None
  }

  /** The marks and the offsets correspond one to one: the offsets are
      -2, -1, 1 and 2, each written by exactly one mark. */
  lemma OctaveMarksInverse(v: string, n: int)
    ensures Octave(v).Ok? ==> OctaveMark(Octave(v).value) == Some(v)
    ensures OctaveMark(n).Some? ==> Octave(OctaveMark(n).value) == Ok(n)
  {
  }

  // ----- Lines -----

  /** The entries a symbol list folds into, scanning left to right: a
      Continue lengthens the last entry by a sixteenth, any other symbol
      starts an entry one sixteenth long, and a Continue with no entry
      before it raises ValueError. */
  function Merge(symbols: seq<Symbol>): Result<seq<Entry>>
    decreases |symbols|
  {
    if |symbols| == 0 then Ok([])
    else
      var last := symbols[|symbols| - 1];
      match Merge(symbols[..|symbols| - 1])
      case Err(e) => Err(e)
      case Ok(es) =>
        if last.Continue? then
          if |es| == 0 then Err(ValueError)
          else Ok(es[|es| - 1 := Entry(es[|es| - 1].symbol, es[|es| - 1].sixteenths + 1)])
        else Ok(es + [Entry(last, 1)])
  }

  /** The symbols an entry list stands for: each entry's symbol followed by
      one Continue per extra sixteenth. */
  function Expand(entries: seq<Entry>): seq<Symbol>
    decreases |entries|
  {
    if |entries| == 0 then []
    else
      var e := entries[|entries| - 1];
      Expand(entries[..|entries| - 1]) + [e.symbol] + Seqs.Repeat([Continue], e.sixteenths - 1)
  }

  /** The entries `Merge` produces: none holds a Continue, and each lasts
      at least a sixteenth. */
  predicate WellFormed(entries: seq<Entry>) {
    forall i :: 0 <= i < |entries| ==> !entries[i].symbol.Continue? && entries[i].sixteenths >= 1
  }

  function CountNotContinue(symbols: seq<Symbol>): nat
    decreases |symbols|
  {
    if |symbols| == 0 then 0
    else CountNotContinue(symbols[..|symbols| - 1]) + (if symbols[|symbols| - 1].Continue? then 0 else 1)
  }

  function TotalSixteenths(entries: seq<Entry>): nat
    decreases |entries|
  {
    if |entries| == 0 then 0
    else TotalSixteenths(entries[..|entries| - 1]) + entries[|entries| - 1].sixteenths
  }

  lemma TotalSixteenthsBump(es: seq<Entry>, e: Entry)
    requires |es| > 0
    ensures TotalSixteenths(es[|es| - 1 := e]) == TotalSixteenths(es) - es[|es| - 1].sixteenths + e.sixteenths
  {
    assert es[|es| - 1 := e][..|es| - 1] == es[..|es| - 1];
  }

  lemma TotalSixteenthsAppend(es: seq<Entry>, e: Entry)
    ensures TotalSixteenths(es + [e]) == TotalSixteenths(es) + e.sixteenths
  {
    assert (es + [e])[..|es|] == es;
  }

  /** A merge fails, with ValueError, exactly when the list starts with
      Continue; otherwise it has an entry iff the list has a symbol. */
  lemma {:induction false} MergeFails(symbols: seq<Symbol>)
    ensures Merge(symbols).Err? <==> |symbols| > 0 && symbols[0].Continue?
    ensures Merge(symbols).Err? ==> Merge(symbols).error == ValueError
    ensures Merge(symbols).Ok? ==> (|symbols| > 0 <==> |Merge(symbols).value| > 0)
    decreases |symbols|
  {
    if |symbols| > 0 {
      var init := symbols[..|symbols| - 1];
      MergeFails(init);
      if |init| > 0 {
        assert init[0] == symbols[0];
      }
    }
  }

  /** A successful merge gives one well-formed entry per non-Continue
      symbol, in order, and the durations add up to one sixteenth per
      symbol. */
  lemma {:induction false} MergeShape(symbols: seq<Symbol>)
    requires Merge(symbols).Ok?
    ensures var es := Merge(symbols).value;
            WellFormed(es) && |es| == CountNotContinue(symbols) && TotalSixteenths(es) == |symbols|
    decreases |symbols|
  {
    if |symbols| > 0 {
      var init := symbols[..|symbols| - 1];
      var last := symbols[|symbols| - 1];
      MergeShape(init);
      var es := Merge(init).value;
      if last.Continue? {
        TotalSixteenthsBump(es, Entry(es[|es| - 1].symbol, es[|es| - 1].sixteenths + 1));
      } else {
        TotalSixteenthsAppend(es, Entry(last, 1));
      }
    }
  }

  lemma ExpandAppend(es: seq<Entry>, e: Entry)
    ensures Expand(es + [e]) == Expand(es) + [e.symbol] + Seqs.Repeat([Continue], e.sixteenths - 1)
  {
    assert (es + [e])[..|es|] == es;
  }

  lemma {:induction false} MergeContinues(symbols: seq<Symbol>, n: nat)
    requires Merge(symbols).Ok? && |Merge(symbols).value| > 0
    ensures var es := Merge(symbols).value;
            var l := es[|es| - 1];
            Merge(symbols + Seqs.Repeat([Continue], n))
              == Ok(es[|es| - 1 := Entry(l.symbol, l.sixteenths + n)])
    decreases n
  {
    var es := Merge(symbols).value;
    if n == 0 {
      assert Seqs.Repeat([Continue], 0) == [];
      assert symbols + [] == symbols;
      assert es[|es| - 1 := es[|es| - 1]] == es;
    } else {
      Seqs.RepeatAdd([Continue], n - 1, 1);
      Seqs.RepeatOnce([Continue]);
      var longer := symbols + Seqs.Repeat([Continue], n - 1);
      MergeContinues(symbols, n - 1);
      assert symbols + Seqs.Repeat([Continue], n) == longer + [Continue];
      var k := |es| - 1;
      var l := es[k];
      var es' := es[k := Entry(l.symbol, l.sixteenths + n - 1)];
      MergeContinue(longer, es');
      assert es'[k] == Entry(l.symbol, l.sixteenths + n - 1);
      UpdateTwice(es, k, Entry(l.symbol, l.sixteenths + n - 1), Entry(l.symbol, l.sixteenths + n));
    }
  }

  lemma UpdateTwice<T>(s: seq<T>, k: nat, a: T, b: T)
    requires k < |s|
    ensures s[k := a][k := b] == s[k := b]
  {
  }

  /** One more Continue lengthens the last entry by a sixteenth. */
  lemma MergeContinue(symbols: seq<Symbol>, es: seq<Entry>)
    requires Merge(symbols) == Ok(es) && |es| > 0
    ensures Merge(symbols + [Continue])
      == Ok(es[|es| - 1 := Entry(es[|es| - 1].symbol, es[|es| - 1].sixteenths + 1)])
  {
    assert (symbols + [Continue])[..|symbols|] == symbols;
  }

  /** Expanding well-formed entries and merging the symbols gives the
      entries back. */
  lemma {:induction false} MergeExpand(entries: seq<Entry>)
    requires WellFormed(entries)
    ensures Merge(Expand(entries)) == Ok(entries)
    decreases |entries|
  {
    if |entries| > 0 {
      var init := entries[..|entries| - 1];
      var e := entries[|entries| - 1];
      assert WellFormed(init);
      MergeExpand(init);
      var s := Expand(init) + [e.symbol];
      assert s[..|s| - 1] == Expand(init);
      assert Merge(s) == Ok(init + [Entry(e.symbol, 1)]);
      MergeContinues(s, e.sixteenths - 1);
      assert (init + [Entry(e.symbol, 1)])[|init| := e] == entries;
    }
  }

  /** Merging and expanding gives the symbols back, so `Merge` loses
      nothing: a line and its entries determine each other. */
  lemma {:induction false} ExpandMerge(symbols: seq<Symbol>)
    requires Merge(symbols).Ok?
    ensures Expand(Merge(symbols).value) == symbols
    decreases |symbols|
  {
    if |symbols| > 0 {
      var init := symbols[..|symbols| - 1];
      var last := symbols[|symbols| - 1];
      assert Merge(init).Ok?;
      ExpandMerge(init);
      var es := Merge(init).value;
      if last.Continue? {
        var l := es[|es| - 1];
        var bumped := es[|es| - 1 := Entry(l.symbol, l.sixteenths + 1)];
        MergeShape(init);
        assert bumped[..|es| - 1] == es[..|es| - 1];
        assert es == es[..|es| - 1] + [l];
        ExpandAppend(es[..|es| - 1], l);
        ExpandAppend(es[..|es| - 1], Entry(l.symbol, l.sixteenths + 1));
        assert bumped == es[..|es| - 1] + [Entry(l.symbol, l.sixteenths + 1)];
        Seqs.RepeatAdd([Continue], l.sixteenths - 1, 1);
        Seqs.RepeatOnce([Continue]);
        assert symbols == init + [last];
      } else {
        ExpandAppend(es, Entry(last, 1));
        assert Seqs.Repeat([Continue], 0) == [];
        assert symbols == init + [last];
      }
    }
  }

  /** The symbols a line stands for: `symbols *= repeat` when the repeat
      count is non-zero (a negative count empties the list), the symbols
      themselves when it is absent or 0. */
  function Repeated(symbols: seq<Symbol>, repeat: int): seq<Symbol> {
    if repeat != 0 then Seqs.Repeat(symbols, repeat) else symbols
  }

  /** `_ToAst.line`: the imperative fold, appending entries and lengthening
      the last one in place. */
  method Line(symbols: seq<Symbol>, repeat: int := 0) returns (r: Result<seq<Entry>>)
    ensures r == Merge(Repeated(symbols, repeat))
  {
    var s := Repeated(symbols, repeat);
    var durations: seq<Entry> := [];
    assert s[..0] == [];
    for k := 0 to |s|
      invariant Merge(s[..k]) == Ok(durations)
    {
      assert s[..k + 1][..k] == s[..k];
      if s[k].Continue? {
        if |durations| == 0 {
          MergeFails(s[..k]);
          MergeFails(s);
          return Err(ValueError);
        }
        var last := durations[|durations| - 1];
        durations := durations[|durations| - 1 := Entry(last.symbol, last.sixteenths + 1)];
      } else {
        durations := durations + [Entry(s[k], 1)];
      }
    }
    assert s[..|s|] == s;
    return Ok(durations);
  }

  /** With no Continue in it, a line of n symbols repeated r > 0 times has
      n * r entries; the parser's own example is 5 symbols repeated 3 times. */
  lemma LineCount(symbols: seq<Symbol>, repeat: int)
    requires |symbols| > 0 && !symbols[0].Continue? && repeat > 0
    ensures Merge(Repeated(symbols, repeat)).Ok?
    ensures |Merge(Repeated(symbols, repeat)).value| == CountNotContinue(symbols) * repeat
    ensures TotalSixteenths(Merge(Repeated(symbols, repeat)).value) == |symbols| * repeat
  {
    var s := Repeated(symbols, repeat);
    Seqs.RepeatAt(symbols, repeat, 0);
    MergeFails(s);
    MergeShape(s);
    CountRepeat(symbols, repeat);
  }

  lemma CountAppend(a: seq<Symbol>, b: seq<Symbol>)
    ensures CountNotContinue(a + b) == CountNotContinue(a) + CountNotContinue(b)
    decreases |b|
  {
    if |b| == 0 {
      assert a + b == a;
    } else {
      assert (a + b)[..|a + b| - 1] == a + b[..|b| - 1];
      CountAppend(a, b[..|b| - 1]);
    }
  }

  lemma {:induction false} CountRepeat(symbols: seq<Symbol>, n: nat)
    ensures CountNotContinue(Seqs.Repeat(symbols, n)) == CountNotContinue(symbols) * n
    decreases n
  {
    if n > 0 {
      CountRepeat(symbols, n - 1);
      CountAppend(symbols, Seqs.Repeat(symbols, n - 1));
    } else {
      assert Seqs.Repeat(symbols, 0) == [];
    }
  }

  // ----- Configuration blocks -----

  /** The configuration a list of directives amounts to: later directives
      overwrite earlier ones. */
  function Merged(configs: seq<Config>): Config
    decreases |configs|
  {
    if |configs| == 0 then map[] else Merged(configs[..|configs| - 1]) + configs[|configs| - 1]
  }

  /** A key is configured iff some directive sets it, and it holds the value
      of the last directive that does. */
  lemma {:induction false} MergedLastWins(configs: seq<Config>, k: string)
    ensures k in Merged(configs) <==> exists i :: 0 <= i < |configs| && k in configs[i]
    ensures forall i :: 0 <= i < |configs| && k in configs[i]
              && (forall j :: i < j < |configs| ==> k !in configs[j])
              ==> Merged(configs)[k] == configs[i][k]
    decreases |configs|
  {
    if |configs| > 0 {
      var init := configs[..|configs| - 1];
      MergedLastWins(init, k);
      assert forall i :: 0 <= i < |init| ==> init[i] == configs[i];
    }
  }

  /** `_ToAst.config_dict`: a loop of `dict.update`. */
  method ConfigDict(configs: seq<Config>) returns (config: Config)
    ensures config == Merged(configs)
  {
    config := map[];
    assert configs[..0] == [];
    for i := 0 to |configs|
      invariant config == Merged(configs[..i])
    {
      assert configs[..i + 1][..i] == configs[..i];
      config := config + configs[i];
    }
    assert configs[..|configs|] == configs;
  }

  // ----- Numbers -----

  function DigitValue(c: char): (r: Option<nat>)
    ensures r.Some? <==> '0' <= c <= '9'
    ensures r.Some? ==> r.value < 10
  {
    if '0' <= c <= '9' then Some(c as int - '0' as int) else None
  }

  function DigitChar(d: nat): (c: char)
    requires d < 10
    ensures DigitValue(c) == Some(d)
  {
    ('0' as int + d) as char
  }

  /** A run of decimal digits; None if any character is not a digit. The
      empty run is 0. */
  function Digits(s: string): (r: Option<nat>)
    decreases |s|
  {
    if |s| == 0 then Some(0)
    else match (Digits(s[..|s| - 1]), DigitValue(s[|s| - 1]))
      case (Some(h), Some(d)) => Some(h * 10 + d)
      case _ => None
  }

  /** `int(text)`: an optional sign and at least one digit. */
  function ParseInt(s: string): (r: Result<int>)
    ensures r.Err? ==> r.error == ValueError
  {
    var neg := |s| > 0 && s[0] == '-';
    var body := if |s| > 0 && (s[0] == '-' || s[0] == '+') then s[1..] else s;
    if |body| == 0 then Err(ValueError)
    else match Digits(body)
      case Some(n) => var v: int := n; Ok(if neg then -v else v)
      case None => Err(ValueError)
  }

  function Pow10(n: nat): (r: nat)
    ensures r >= 1
  {
    if n == 0 then 1 else 10 * Pow10(n - 1)
  }

  function IndexOfDot(s: string): (r: nat)
    requires '.' in s
    ensures r < |s| && s[r] == '.' && '.' !in s[..r]
  {
    if s[0] == '.' then 0
    else
      assert '.' in s[1..] by {
        var i :| 0 <= i < |s| && s[i] == '.';
        assert s[1..][i - 1] == '.';
      }
      var k := IndexOfDot(s[1..]);
      assert s[..k + 1] == [s[0]] + s[1..][..k];
      k + 1
  }

  /** `float(text)` for a decimal with a point: an optional sign, digits
      before and after the first point, at least one digit in all.
      Exponents are not modelled. */
  function ParseDecimal(s: string): (r: Result<real>)
    requires '.' in s
    ensures r.Err? ==> r.error == ValueError
  {
    var neg := |s| > 0 && s[0] == '-';
    var body := if |s| > 0 && (s[0] == '-' || s[0] == '+') then s[1..] else s;
    if '.' !in body then Err(ValueError)
    else
      var p := IndexOfDot(body);
      var whole, frac := body[..p], body[p + 1..];
      if |whole| + |frac| == 0 then Err(ValueError)
      else match (Digits(whole), Digits(frac))
        case (Some(w), Some(f)) =>
          var v := DecimalValue(w, f, |frac|);
          Ok(if neg then -v else v)
        case _ => Err(ValueError)
  }

  /** The value of whole part w and n fraction digits reading as f. */
  function DecimalValue(w: nat, f: nat, n: nat): real {
    w as real + f as real / Pow10(n) as real
  }

  /** `_ToAst.SIGNED_NUMBER`: a decimal if the text has a point, an integer
      otherwise; text that does not parse raises ValueError. */
  function SignedNumber(text: string): (r: Result<Value>)
    ensures r.Ok? ==> (r.value.VFloat? <==> '.' in text) && (r.value.VFloat? || r.value.VInt?)
    ensures r.Err? ==> r.error == ValueError
  {
    if '.' in text then
      match ParseDecimal(text)
      case Ok(f) => Ok(VFloat(f))
      case Err(e) => Err(e)
    else
      match ParseInt(text)
      case Ok(i) => Ok(VInt(i))
      case Err(e) => Err(e)
  }

  /** The decimal digits of a natural number, without leading zeros. */
  function ShowNat(n: nat): (s: string)
    ensures |s| > 0 && forall i :: 0 <= i < |s| ==> '0' <= s[i] <= '9'
  {
    if n < 10 then [DigitChar(n)] else ShowNat(n / 10) + [DigitChar(n % 10)]
  }

  function ShowInt(i: int): string {
    if i < 0 then "-" + ShowNat(-i) else ShowNat(i)
  }

  lemma {:induction false} DigitsShowNat(n: nat)
    ensures Digits(ShowNat(n)) == Some(n)
    decreases n
  {
    if n < 10 {
      assert [DigitChar(n)][..0] == [];
    } else {
      var s := ShowNat(n);
      DigitsShowNat(n / 10);
      assert s[..|s| - 1] == ShowNat(n / 10);
    }
  }

  /** Writing an integer in decimal and reading it back as a token gives
      the same integer. */
  lemma SignedNumberShowInt(i: int)
    ensures SignedNumber(ShowInt(i)) == Ok(VInt(i))
  {
    var s := ShowInt(i);
    var n: nat := if i < 0 then -i else i;
    DigitsShowNat(n);
    ShowNatPlain(n);
    if i < 0 {
      assert s[1..] == ShowNat(n);
      assert '.' !in s by {
        assert forall j :: 1 <= j < |s| ==> s[j] == ShowNat(n)[j - 1];
      }
      assert ParseInt(s) == Ok(i);
    } else {
      assert ParseInt(s) == Ok(i);
    }
  }

  /** A numeral has no point and does not start with a sign. */
  lemma ShowNatPlain(n: nat)
    ensures '.' !in ShowNat(n) && ShowNat(n)[0] != '-' && ShowNat(n)[0] != '+'
  {
    var s := ShowNat(n);
    assert forall j :: 0 <= j < |s| ==> s[j] != '.';
  }

  predicate AllDigits(s: string) {
    forall i :: 0 <= i < |s| ==> '0' <= s[i] <= '9'
  }

  /** The text after an optional leading sign. */
  function Unsigned(s: string): string {
    if |s| > 0 && (s[0] == '-' || s[0] == '+') then s[1..] else s
  }

  /** A run reads as a number exactly when every character is a digit. */
  lemma {:induction false} DigitsAll(s: string)
    ensures Digits(s).Some? <==> AllDigits(s)
    decreases |s|
  {
    if |s| > 0 {
      var init := s[..|s| - 1];
      DigitsAll(init);
      assert forall i :: 0 <= i < |init| ==> init[i] == s[i];
    }
  }

  /** `int(text)` accepts exactly an optional sign followed by at least one
      digit, and a leading '-' negates the value. */
  lemma ParseIntAccepts(s: string)
    ensures ParseInt(s).Ok? <==> |Unsigned(s)| > 0 && AllDigits(Unsigned(s))
    ensures ParseInt(s).Ok? ==>
      ParseInt(s).value == (if s[0] == '-' then -(Digits(Unsigned(s)).value as int) else Digits(Unsigned(s)).value)
  {
    DigitsAll(Unsigned(s));
  }

  /** `float(text)` on a text with a point accepts exactly an optional sign,
      then digits, the first point and digits, with at least one digit in
      all. */
  lemma ParseDecimalAccepts(s: string)
    requires '.' in s
    ensures var b := Unsigned(s);
            ParseDecimal(s).Ok? <==>
              '.' in b && |b| > 1 && AllDigits(b[..IndexOfDot(b)]) && AllDigits(b[IndexOfDot(b) + 1..])
  {
    var b := Unsigned(s);
    if '.' in b {
      var p := IndexOfDot(b);
      DigitsAll(b[..p]);
      DigitsAll(b[p + 1..]);
    }
  }

  /** The first point of a text is the one no earlier point precedes. */
  lemma {:induction false} IndexOfDotAt(s: string, p: nat)
    requires p < |s| && s[p] == '.' && '.' !in s[..p]
    ensures IndexOfDot(s) == p
    decreases p
  {
    if p > 0 {
      assert s[0] == s[..p][0];
      assert s[1..][p - 1] == '.';
      assert s[1..][..p - 1] == s[1..p];
      assert '.' !in s[1..p] by {
        forall j | 0 <= j < p - 1 ensures s[1..p][j] != '.' {
          assert s[1..p][j] == s[..p][j + 1];
        }
      }
      IndexOfDotAt(s[1..], p - 1);
    }
  }

  /** The pieces `float` sees in "w.ds": no sign, the whole part w and the
      fraction digits ds on either side of the first point. */
  lemma DecimalPieces(w: nat, ds: string)
    ensures var b := ShowNat(w) + "." + ds;
            var p := |ShowNat(w)|;
            '.' in b && Unsigned(b) == b && IndexOfDot(b) == p
            && b[..p] == ShowNat(w) && b[p + 1..] == ds
  {
    ShowNatPlain(w);
    var b := ShowNat(w) + "." + ds;
    var p := |ShowNat(w)|;
    assert b[..p] == ShowNat(w);
    assert b[p + 1..] == ds;
    assert b[p] == '.';
    IndexOfDotAt(b, p);
  }

  /** `float` on an unsigned text whose first point splits it into two
      digit runs. */
  lemma ParseDecimalPieces(b: string, p: nat, w: nat, f: nat)
    requires '.' in b && Unsigned(b) == b && IndexOfDot(b) == p && |b| > 1
    requires Digits(b[..p]) == Some(w) && Digits(b[p + 1..]) == Some(f)
    ensures ParseDecimal(b) == Ok(DecimalValue(w, f, |b| - p - 1))
  {
    assert b[0] != '-';
  }

  /** A leading '-' negates what `float` reads from the rest. */
  lemma ParseDecimalNegate(b: string)
    requires '.' in b && Unsigned(b) == b && ParseDecimal(b).Ok?
    ensures '.' in "-" + b
    ensures ParseDecimal("-" + b) == Ok(-ParseDecimal(b).value)
  {
    var neg := "-" + b;
    assert neg[0] == '-' && neg[1..] == b;
    var k :| 0 <= k < |b| && b[k] == '.';
    assert neg[k + 1] == '.';
    assert b[0] != '-' && b[0] != '+';
  }

  /** `float` reads "w.ds" as w plus the fraction of the digits ds. */
  lemma DecimalReads(w: nat, ds: string)
    requires |ds| > 0 && AllDigits(ds)
    ensures Digits(ds).Some?
    ensures var b := ShowNat(w) + "." + ds;
            '.' in b && Unsigned(b) == b
            && ParseDecimal(b) == Ok(DecimalValue(w, Digits(ds).value, |ds|))
  {
    DigitsAll(ds);
    DigitsShowNat(w);
    DecimalPieces(w, ds);
    var b := ShowNat(w) + "." + ds;
    var p := |ShowNat(w)|;
    assert Digits(b[..p]) == Some(w);
    assert Digits(b[p + 1..]) == Some(Digits(ds).value);
    ParseDecimalPieces(b, p, w, Digits(ds).value);
  }

  /** A decimal "w.ds" reads as w plus the fraction the digits ds stand for. */
  lemma SignedNumberDecimal(w: nat, ds: string)
    requires |ds| > 0 && AllDigits(ds)
    ensures Digits(ds).Some?
    ensures SignedNumber(ShowNat(w) + "." + ds) == Ok(VFloat(DecimalValue(w, Digits(ds).value, |ds|)))
  {
    DecimalReads(w, ds);
    SignedNumberOfDecimal(ShowNat(w) + "." + ds);
  }

  /** A leading '-' on an unsigned decimal token negates its value, so
      "-w.ds" reads as the negation of "w.ds". */
  lemma SignedNumberNegate(b: string)
    requires '.' in b && Unsigned(b) == b && ParseDecimal(b).Ok?
    ensures SignedNumber("-" + b) == Ok(VFloat(-ParseDecimal(b).value))
  {
    ParseDecimalNegate(b);
    SignedNumberOfDecimal("-" + b);
  }

  lemma SignedNumberOfDecimal(t: string)
    requires '.' in t && ParseDecimal(t).Ok?
    ensures SignedNumber(t) == Ok(VFloat(ParseDecimal(t).value))
  {
  }
}
