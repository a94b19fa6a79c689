/** How file names become test cases, and the order of the cases. Names are ASCII. */
module CaseNames {
  import opened Basics
  import opened Text

  datatype Kind = Input | Answer | Neither

  // ---- names --------------------------------------------------------------

  predicate Space(c: char) { c in {' ', '\t', '\n', '\r'} || c == 11 as char || c == 12 as char }

  function TrimLeft(s: string): string { if s != "" && Space(s[0]) then TrimLeft(s[1..]) else s }

  function TrimEnd(s: string): string
  {
    if s != "" && Space(s[|s| - 1]) then TrimEnd(s[..|s| - 1]) else s
  }

  function Slashed(s: string): string { seq(|s|, i requires 0 <= i < |s| => if s[i] == '\\' then '/' else s[i]) }

  function DropSlashes(s: string): string
  {
    if s != "" && s[|s| - 1] == '/' then DropSlashes(s[..|s| - 1]) else s
  }

  function AfterLastSlash(s: string): string
  {
    if s == "" then "" else if s[|s| - 1] == '/' then "" else AfterLastSlash(s[..|s| - 1]) + [s[|s| - 1]]
  }

  /** path.Base. */
  function Base(s: string): string
  {
    if s == "" then "."
    else if DropSlashes(s) == "" then "/"
    else AfterLastSlash(DropSlashes(s))
  }

  function Lower(s: string): (r: string)
    ensures |r| == |s|
    ensures forall i | 0 <= i < |s| :: r[i] == if 'A' <= s[i] <= 'Z' then (s[i] as int + 32) as char else s[i]
  {
    seq(|s|, i requires 0 <= i < |s| => if 'A' <= s[i] <= 'Z' then (s[i] as int + 32) as char else s[i])
  }

  /** The longest run of digits that starts at the first digit, or the empty text if there is no digit. */
  function FirstDigitRun(s: string): string
  {
    if s == "" then "" else if IsDigit(s[0]) then LeadingDigits(s) else FirstDigitRun(s[1..])
  }

  function LeadingDigits(s: string): (r: string)
    ensures r <= s && AllDigits(r)
    ensures |r| < |s| ==> !IsDigit(s[|r|])
    ensures s != "" && IsDigit(s[0]) ==> r != ""
  {
    if s == "" || !IsDigit(s[0]) then "" else [s[0]] + LeadingDigits(s[1..])
  }

  lemma {:induction false} FirstDigitRunMeans(s: string)
    ensures AllDigits(FirstDigitRun(s))
    ensures FirstDigitRun(s) == "" <==> NoDigits(s)
  {
    if s != "" && !IsDigit(s[0]) { FirstDigitRunMeans(s[1..]); }
  }

  /** Up to `index` no digit was seen (`start` < 0), or exactly the digits from `start` on. */
  predicate Scanned(value: string, start: int, index: nat)
  {
    && -1 <= start < index <= |value|
    && (start < 0 ==> FirstDigitRun(value) == FirstDigitRun(value[index..]))
    && (start >= 0 ==> AllDigits(value[start..index])
                       && FirstDigitRun(value) == value[start..index] + LeadingDigits(value[index..]))
  }

  lemma ScanFirst(value: string, index: nat)
    requires index < |value| && (index == 0 || Scanned(value, -1, index))
    ensures IsDigit(value[index]) ==> Scanned(value, index, index + 1)
    ensures !IsDigit(value[index]) ==> Scanned(value, -1, index + 1)
  {}

  lemma {:induction false} ScanMore(value: string, start: nat, index: nat)
    requires index < |value| && Scanned(value, start, index)
    ensures IsDigit(value[index]) ==> Scanned(value, start, index + 1)
    ensures !IsDigit(value[index]) ==> FirstDigitRun(value) == value[start..index]
  {
    var run, rest := value[start..index], value[index..];
    assert rest[0] == value[index] && rest[1..] == value[index + 1..];
    if IsDigit(value[index]) {
      assert value[start..index + 1] == run + [value[index]];
      assert LeadingDigits(rest) == [value[index]] + LeadingDigits(rest[1..]);
      Regroup(run, value[index], LeadingDigits(rest[1..]));
    } else {
      assert LeadingDigits(rest) == "";
    }
  }

  lemma Regroup(run: string, c: char, rest: string)
    ensures run + ([c] + rest) == run + [c] + rest
  {}

  /** `firstDigitRun`, with its start marker. */
  method ScanDigitRun(value: string) returns (run: string)
    ensures run == FirstDigitRun(value)
  {
    var start := -1;
    for index := 0 to |value|
      invariant if index == 0 then start == -1 else Scanned(value, start, index)
    {
      if start < 0 { ScanFirst(value, index); } else { ScanMore(value, start, index); }
      if IsDigit(value[index]) {
        if start < 0 { start := index; }
        continue;
      }
      if start >= 0 { return value[start..index]; }
    }
    if start >= 0 { return value[start..]; }
    return "";
  }

  /** `DataCaseStem`: the case a file name belongs to, and whether it is its input or its answer. */
  function DataCaseStem(name: string): (string, Kind)
  {
    var base := Base(Slashed(TrimEnd(TrimLeft(name))));
    var lower := Lower(base);
    var run := FirstDigitRun(base);
    if run != "" && Contains(lower, "in") then (run, Input)
    else if run != "" && (Contains(lower, "out") || Contains(lower, "ans")) then (run, Answer)
    else if HasSuffix(lower, ".in") then if |base| > 3 then (base[..|base| - 3], Input) else ("", Neither)
    else if HasSuffix(lower, ".out") || HasSuffix(lower, ".ans") then
      if |base| > 4 then (base[..|base| - 4], Answer) else ("", Neither)
    else ("", Neither)
  }

  /** What the parser can produce: a number, or a text without digits. */
  predicate StemShape(stem: string) { stem != "" && (AllDigits(stem) || NoDigits(stem)) }

  lemma SuffixIsContained(s: string, dot: string, part: string)
    requires HasSuffix(s, dot) && |dot| == |part| + 1 && dot[1..] == part
    ensures Contains(s, part)
  {}

  lemma StemsHaveShape(name: string)
    requires DataCaseStem(name).1 != Neither
    ensures StemShape(DataCaseStem(name).0)
  {
    var base := Base(Slashed(TrimEnd(TrimLeft(name))));
    var lower := Lower(base);
    FirstDigitRunMeans(base);
    if HasSuffix(lower, ".in") { SuffixIsContained(lower, ".in", "in"); }
    if HasSuffix(lower, ".out") { SuffixIsContained(lower, ".out", "out"); }
    if HasSuffix(lower, ".ans") { SuffixIsContained(lower, ".ans", "ans"); }
  }

  // ---- names of numbered cases --------------------------------------------

  lemma {:induction false} BaseOf(dir: string, base: string)
    requires base != "" && (forall i | 0 <= i < |base| :: base[i] != '/') && (dir == "" || dir[|dir| - 1] == '/')
    ensures AfterLastSlash(dir + base) == base && Base(dir + base) == base
  {
    LastSlash(dir, base);
    assert (dir + base)[|dir + base| - 1] == base[|base| - 1];
  }

  lemma {:induction false} LastSlash(dir: string, base: string)
    requires (forall i | 0 <= i < |base| :: base[i] != '/') && (dir == "" || dir[|dir| - 1] == '/')
    ensures AfterLastSlash(dir + base) == base
  {
    if base == "" {
      assert dir + base == dir;
    } else {
      var init := base[..|base| - 1];
      LastSlash(dir, init);
      var s := dir + base;
      assert s[..|s| - 1] == dir + init && s[|s| - 1] == base[|base| - 1] != '/';
      assert AfterLastSlash(s) == AfterLastSlash(dir + init) + [s[|s| - 1]];
      assert base == init + [base[|base| - 1]];
    }
  }

  lemma {:induction false} PlainBase(dir: string, base: string)
    requires base != "" && forall i | 0 <= i < |base| :: base[i] != '/' && base[i] != '\\' && !Space(base[i])
    requires dir == "" || (!Space(dir[0]) && (dir[|dir| - 1] == '/' || dir[|dir| - 1] == '\\'))
    ensures Base(Slashed(TrimEnd(TrimLeft(dir + base)))) == base
  {
    var name := dir + base;
    assert !Space(name[0]) && !Space(name[|name| - 1]);
    assert Slashed(name) == Slashed(dir) + base;
    BaseOf(Slashed(dir), base);
  }

  lemma {:induction false} RunThenText(run: string, rest: string)
    requires run != "" && AllDigits(run) && rest != "" && !IsDigit(rest[0])
    ensures LeadingDigits(run + rest) == run && FirstDigitRun(run + rest) == run
  {
    assert (run + rest)[1..] == run[1..] + rest;
    if |run| > 1 { RunThenText(run[1..], rest); }
    assert run == [run[0]] + run[1..];
  }

  lemma LowerText(s: string)
    requires forall i | 0 <= i < |s| :: !('A' <= s[i] <= 'Z')
    ensures Lower(s) == s
  {}

  predicate IsExtension(ext: string) { ext == ".in" || ext == ".out" || ext == ".ans" }

  lemma {:induction false} EndsWith(text: string, ext: string)
    requires |ext| > 1
    ensures Contains(text + ext, ext[1..]) && HasSuffix(text + ext, ext)
  {
    var s := text + ext;
    assert s[|text| + 1..] == ext[1..];
    assert HasPrefix(s[|text| + 1..], ext[1..]) && s[|text|..] == ext;
  }

  lemma LacksIn(s: string)
    requires 'i' !in s
    ensures !Contains(s, "in")
  {
    forall i | 0 <= i <= |s| ensures !HasPrefix(s[i..], "in") {
      if i < |s| { assert s[i..][0] == s[i] && s[i] in s; }
    }
  }

  lemma {:induction false} PlainRun(run: string, ext: string)
    requires AllDigits(run) && IsExtension(ext)
    ensures forall i | 0 <= i < |run + ext| :: var c := (run + ext)[i];
              c != '/' && c != '\\' && !Space(c) && !('A' <= c <= 'Z')
    ensures ext != ".in" ==> 'i' !in run + ext
  {}

  /** What a number with an extension says to the parser. */
  lemma {:induction false} NumberedParts(dir: string, run: string, ext: string)
    requires run != "" && AllDigits(run) && IsExtension(ext)
    requires dir == "" || (!Space(dir[0]) && (dir[|dir| - 1] == '/' || dir[|dir| - 1] == '\\'))
    ensures Base(Slashed(TrimEnd(TrimLeft(dir + (run + ext))))) == Lower(run + ext) == run + ext
    ensures FirstDigitRun(run + ext) == run && Contains(run + ext, ext[1..])
    ensures ext != ".in" ==> !Contains(run + ext, "in")
  {
    hide Contains, Base, Slashed, TrimEnd, TrimLeft;
    PlainRun(run, ext);
    PlainBase(dir, run + ext);
    RunThenText(run, ext);
    LowerText(run + ext);
    EndsWith(run, ext);
    if ext != ".in" { LacksIn(run + ext); }
  }

  /** A number with one of the three extensions is a file of that case, in any directory, with slashes of
      either kind. */
  lemma NumberedName(dir: string, run: string, ext: string)
    requires run != "" && AllDigits(run) && (ext == ".in" || ext == ".out" || ext == ".ans")
    requires dir == "" || (!Space(dir[0]) && (dir[|dir| - 1] == '/' || dir[|dir| - 1] == '\\'))
    ensures DataCaseStem(dir + (run + ext)) == (run, if ext == ".in" then Input else Answer)
  {
    hide Contains, FirstDigitRun, AllDigits, Base, Slashed, TrimEnd, TrimLeft, Lower;
    NumberedParts(dir, run, ext);
    assert ".in"[1..] == "in" && ".out"[1..] == "out" && ".ans"[1..] == "ans";
  }

  lemma NumberedInput(dir: string, run: string)
    requires run != "" && AllDigits(run) && (dir == "" || dir == "judge/")
    ensures DataCaseStem(dir + (run + ".in")) == (run, Input)
  {
    NumberedName(dir, run, ".in");
  }

  lemma {:induction false} NoRun(s: string)
    requires NoDigits(s)
    ensures FirstDigitRun(s) == ""
  {
    if s != "" { NoRun(s[1..]); }
  }

  lemma LowerTail(text: string, ext: string)
    requires IsExtension(ext)
    ensures HasSuffix(Lower(text + ext), ext) && |Lower(text + ext)| == |text| + |ext|
    ensures ext != ".in" ==> !HasSuffix(Lower(text + ext), ".in")
  {
    var lower := Lower(text + ext);
    assert forall i | 0 <= i < |ext| :: (text + ext)[|text| + i] == ext[i];
    assert lower[|text|..] == ext;
    if ext != ".in" { assert lower[|lower| - 3] == ext[1] != '.'; }
  }

  /** What a text without digits with an extension says to the parser. */
  lemma {:induction false} NamedParts(text: string, ext: string)
    requires text != "" && NoDigits(text) && IsExtension(ext)
    requires forall i | 0 <= i < |text| :: text[i] != '/' && text[i] != '\\' && !Space(text[i])
    ensures Base(Slashed(TrimEnd(TrimLeft(text + ext)))) == text + ext && FirstDigitRun(text + ext) == ""
    ensures (text + ext)[..|text|] == text
  {
    hide Base, Slashed, TrimEnd, TrimLeft, FirstDigitRun;
    assert "" + (text + ext) == text + ext;
    PlainEnd(text, ext);
    PlainBase("", text + ext);
    NoRun(text + ext);
  }

  lemma PlainEnd(text: string, ext: string)
    requires NoDigits(text) && IsExtension(ext)
    requires forall i | 0 <= i < |text| :: text[i] != '/' && text[i] != '\\' && !Space(text[i])
    ensures NoDigits(text + ext)
    ensures forall i | 0 <= i < |text + ext| :: var c := (text + ext)[i]; c != '/' && c != '\\' && !Space(c)
  {
    forall i | 0 <= i < |text + ext|
      ensures var c := (text + ext)[i]; c != '/' && c != '\\' && !Space(c) && !IsDigit(c)
    {
      if i >= |text| { assert (text + ext)[i] == ext[i - |text|]; }
    }
  }

  /** So is a text without digits; it is the case's name. */
  lemma NamedCase(text: string, ext: string)
    requires text != "" && NoDigits(text) && (ext == ".in" || ext == ".out" || ext == ".ans")
    requires forall i | 0 <= i < |text| :: text[i] != '/' && text[i] != '\\' && !Space(text[i])
    ensures DataCaseStem(text + ext) == (text, if ext == ".in" then Input else Answer)
  {
    hide Contains, HasSuffix, FirstDigitRun, Base, Slashed, TrimEnd, TrimLeft, Lower, NoDigits, Space;
    NamedParts(text, ext);
    LowerTail(text, ext);
  }

  lemma {:induction false} TrimmedSpaces(left: string, name: string, right: string)
    requires forall c | c in left + right :: c in " \t\n\r" || c == 11 as char || c == 12 as char
    requires name != "" && !Space(name[0]) && !Space(name[|name| - 1])
    ensures TrimEnd(TrimLeft(left + name + right)) == name
  {
    if left != "" {
      assert left[0] in left + right && (left + name + right)[1..] == left[1..] + name + right;
      assert forall c | c in left[1..] + right :: c in left + right;
      TrimmedSpaces(left[1..], name, right);
    } else if right != "" {
      var n := |right| - 1;
      assert left + name + right == name + right && (name + right)[0] == name[0];
      assert right[n] in left + right && (name + right)[..|name| + n] == name + right[..n];
      assert forall c | c in left + right[..n] :: c in left + right;
      assert left + name + right[..n] == name + right[..n] && (name + right[..n])[0] == name[0];
      TrimmedSpaces(left, name, right[..n]);
    } else {
      assert left + name + right == name;
    }
  }

  /** White space around a name does not count. */
  lemma SpacesDoNotCount(left: string, name: string, right: string)
    requires forall c | c in left + right :: c in " \t\n\r" || c == 11 as char || c == 12 as char
    requires name != "" && !Space(name[0]) && !Space(name[|name| - 1])
    ensures DataCaseStem(left + name + right) == DataCaseStem(name)
  {
    hide Space, TrimLeft, TrimEnd, Base, Slashed, Lower, FirstDigitRun, Contains, HasSuffix;
    TrimmedSpaces(left, name, right);
    assert forall c | c in "" + "" :: c in left + right;
    assert "" + name + "" == name;
    TrimmedSpaces("", name, "");
  }

  // ---- the order of stems -------------------------------------------------

  const MAX_INT := 0x7FFF_FFFF_FFFF_FFFF

  /** strconv.Atoi, on 64-bit integers. */
  function Atoi(s: string): Option<int>
  {
    var signed := s != "" && (s[0] == '+' || s[0] == '-');
    var digits := if signed then s[1..] else s;
    if digits == "" || !AllDigits(digits) then None
    else
      var value: int := if signed && s[0] == '-' then -(Value(digits) as int) else Value(digits) as int;
      if -MAX_INT - 1 <= value <= MAX_INT then Some(value) else None
  }

  /** Numbers are read with and without sign, as far as they fit 64 bits. */
  lemma AtoiMeans(n: nat)
    ensures Atoi(Decimal(n)) == Atoi("+" + Decimal(n)) == if n <= 9_223_372_036_854_775_807 then Some(n) else None
    ensures var value: int := n;
            Atoi("-" + Decimal(n)) == if value <= 9_223_372_036_854_775_808 then Some(-value) else None
  {
    var digits := Decimal(n);
    assert IsDigit(digits[0]);
    assert ("+" + digits)[1..] == digits && ("-" + digits)[1..] == digits;
    hide Decimal;
  }

  /** `CaseStemLess`. */
  predicate StemLess(a: string, b: string)
  {
    if Atoi(a).Some? && Atoi(b).Some? && Atoi(a) != Atoi(b) then Atoi(a).value < Atoi(b).value else Before(a, b)
  }

  /** The comparator is a strict total order on these stems. */
  ghost predicate OrdersStems(stems: set<string>)
  {
    && (forall a | a in stems :: !StemLess(a, a))
    && (forall a, b | a in stems && b in stems && a != b :: StemLess(a, b) != StemLess(b, a))
    && (forall a, b, c | a in stems && b in stems && c in stems && StemLess(a, b) && StemLess(b, c) :: StemLess(a, c))
  }

  predicate Fits(stem: string) { stem != "" && AllDigits(stem) && Value(stem) <= MAX_INT }

  predicate Overflows(stem: string) { AllDigits(stem) && Value(stem) > MAX_INT }

  /** Two numbers that fit an int, and one too large for it that as a text lies between them the wrong way round. */
  predicate Tangled(x: string, y: string, huge: string)
  {
    Fits(x) && Fits(y) && Overflows(huge) && Value(x) < Value(y) && Before(y, huge) && Before(huge, x)
  }

  lemma {:induction false} AtoiOfStem(stem: string)
    requires StemShape(stem)
    ensures Atoi(stem) == if Fits(stem) then Some(Value(stem)) else None
  {}

  /** A number and a text without digits compare by their first characters, so all numbers fall on one side of it. */
  lemma {:induction false} NumberAgainstText(number: string, text: string)
    requires number != "" && AllDigits(number) && text != "" && NoDigits(text)
    ensures Before(number, text) <==> text[0] > '9'
    ensures Before(text, number) <==> text[0] < '0'
  {}

  lemma StemLessIsTotal(a: string, b: string)
    ensures !StemLess(a, a) && (a != b ==> StemLess(a, b) != StemLess(b, a))
  {
    BeforeIrreflexive(a);
    BeforeTotal(a, b);
    if Before(a, b) && Before(b, a) { BeforeTransitive(a, b, a); }
  }

  /** Two numbers and a third stem go round in a circle only if the third tangles them. */
  lemma PairCycle(a: string, b: string, c: string)
    requires StemShape(a) && StemShape(b) && StemShape(c) && Fits(a) && Fits(b)
    requires StemLess(a, b) && StemLess(b, c) && StemLess(c, a)
    ensures Tangled(a, b, c)
  {
    AtoiOfStem(a);
    AtoiOfStem(b);
    AtoiOfStem(c);
    if Before(a, b) && Before(b, c) { BeforeTransitive(a, b, c); }
    if Before(a, c) && Before(c, a) { BeforeTransitive(a, c, a); }
    BeforeIrreflexive(a);
    if !AllDigits(c) { NumberAgainstText(a, c); NumberAgainstText(b, c); }
  }

  lemma CycleIsTangled(a: string, b: string, c: string)
    requires StemShape(a) && StemShape(b) && StemShape(c)
    requires StemLess(a, b) && StemLess(b, c) && StemLess(c, a)
    ensures Tangled(a, b, c) || Tangled(b, c, a) || Tangled(c, a, b)
  {
    if Fits(a) && Fits(b) { PairCycle(a, b, c); }
    else if Fits(b) && Fits(c) { PairCycle(b, c, a); }
    else if Fits(c) && Fits(a) { PairCycle(c, a, b); }
    else {
      AtoiOfStem(a);
      AtoiOfStem(b);
      AtoiOfStem(c);
      BeforeTransitive(a, b, c);
      BeforeTransitive(a, c, a);
      BeforeIrreflexive(a);
    }
  }

  /** On any stems the parser can produce, the comparator is a strict total order exactly if no three are tangled. */
  lemma OrderIsExact(stems: set<string>)
    requires forall s | s in stems :: StemShape(s)
    ensures OrdersStems(stems) <==>
              forall x, y, huge | x in stems && y in stems && huge in stems :: !Tangled(x, y, huge)
  {
    if forall x, y, huge | x in stems && y in stems && huge in stems :: !Tangled(x, y, huge) {
      forall a, b | a in stems && b in stems ensures !StemLess(a, a) && (a != b ==> StemLess(a, b) != StemLess(b, a)) {
        StemLessIsTotal(a, b);
      }
      forall a, b, c | a in stems && b in stems && c in stems && StemLess(a, b) && StemLess(b, c)
        ensures StemLess(a, c)
      {
        if !StemLess(a, c) && a != c { CycleIsTangled(a, b, c); }
      }
    } else {
      var x, y, huge :| x in stems && y in stems && huge in stems && Tangled(x, y, huge);
      AtoiOfStem(x);
      AtoiOfStem(y);
      AtoiOfStem(huge);
      assert StemLess(x, y) && StemLess(y, huge) && StemLess(huge, x);
    }
  }

  // ---- where it is not an order -------------------------------------------

  /** A cycle among texts the parser cannot produce. */
  lemma ArbitraryTextsCycle()
    ensures StemLess("9", "10") && StemLess("10", "1a") && StemLess("1a", "9")
  {
    assert Value("9") == 9;
    assert "10"[..1] == "1" && Value("1") == 1;
    assert Value("10") == 10;
    assert "1a"[1] == 'a';
    assert Atoi("1a").None? by { assert !IsDigit("1a"[1]); }
    assert "10"[1..] == "0" && "1a"[1..] == "a";
    assert Before("0", "a");
  }

  /** A stem of some file name; as a number, at most `most`. */
  ghost predicate ParsedUpTo(stem: string, most: nat)
  {
    && (exists name :: DataCaseStem(name) == (stem, Input))
    && (AllDigits(stem) ==> Value(stem) <= most)
  }

  function FirstThree(n: nat): nat { if n < 1000 then n else FirstThree(n / 10) }

  lemma {:induction false} DecimalStart(n: nat)
    requires n >= 100
    ensures FirstThree(n) >= 100 && Decimal(FirstThree(n)) <= Decimal(n)
  {
    if n >= 1000 { DecimalStart(n / 10); }
  }

  lemma {:induction false} NumberIsParsed(stem: string, most: nat)
    requires stem != "" && AllDigits(stem) && Value(stem) <= most
    ensures ParsedUpTo(stem, most) && StemShape(stem)
  {
    NumberedInput("", stem);
    assert DataCaseStem("" + (stem + ".in")) == (stem, Input);
  }

  lemma FirstThreeOfHuge()
    ensures FirstThree(MAX_INT + 1) == 922
  {
    assert FirstThree(922337) == 922;
    assert FirstThree(922337203) == FirstThree(922337);
    assert FirstThree(922337203685) == FirstThree(922337203);
    assert FirstThree(922337203685477) == FirstThree(922337203685);
    assert FirstThree(922337203685477580) == FirstThree(922337203685477);
    assert FirstThree(MAX_INT + 1) == FirstThree(922337203685477580);
  }

  lemma ThreeDigits()
    ensures Decimal(922) == "922" && Decimal(921) == "921" && Decimal(93) == "93"
  {
    assert Decimal(9) == "9" && Decimal(92) == "92";
  }

  lemma {:induction false} BetweenTexts(huge: string)
    requires "922" <= huge
    ensures Before("921", huge) && Before(huge, "93")
  {
    var one, two := huge[1..], huge[1..][1..];
    assert huge[0] == "922"[0] && one[0] == "922"[1] && two[0] == "922"[2];
    assert "921"[1..] == "21" && "21"[1..] == "1" && "93"[1..] == "3";
    assert Before("1", two) && Before("21", one) && Before(one, "3");
  }

  /** The first number beyond the ints begins like 922: as texts go it lies between 921 and 93. */
  lemma SmallestTangle()
    ensures Tangled("93", "921", Decimal(MAX_INT + 1))
  {
    ThreeDigits();
    FirstThreeOfHuge();
    DecimalStart(MAX_INT + 1);
    BetweenTexts(Decimal(MAX_INT + 1));
    hide Decimal;
    assert Value(Decimal(93)) == 93 && Value(Decimal(921)) == 921 && Value(Decimal(MAX_INT + 1)) == MAX_INT + 1;
  }

  lemma ParsedIsOrdered(most: nat, stems: set<string>)
    requires most <= MAX_INT && forall s | s in stems :: ParsedUpTo(s, most)
    ensures OrdersStems(stems)
  {
    hide DataCaseStem;
    forall s | s in stems ensures StemShape(s) && !Overflows(s) {
      var name :| DataCaseStem(name) == (s, Input);
      StemsHaveShape(name);
    }
    OrderIsExact(stems);
  }

  lemma ParsedIsTangled(most: nat) returns (stems: set<string>)
    requires most > MAX_INT
    ensures (forall s | s in stems :: ParsedUpTo(s, most)) && !OrdersStems(stems)
  {
    var huge := Decimal(MAX_INT + 1);
    stems := {"93", "921", huge};
    SmallestTangle();
    hide DataCaseStem;
    forall s | s in stems ensures ParsedUpTo(s, most) && StemShape(s) { NumberIsParsed(s, most); }
    OrderIsExact(stems);
    assert "93" in stems && "921" in stems && huge in stems;
  }

  /** For stems of file names whose numbers are at most `most`, the comparator can be relied on exactly if those all fit
      an int. */
  lemma OrderUpTo(most: nat)
    ensures most <= MAX_INT <==>
              forall stems: set<string> | (forall s | s in stems :: ParsedUpTo(s, most)) :: OrdersStems(stems)
  {
    hide ParsedUpTo, OrdersStems;
    if most <= MAX_INT {
      forall stems: set<string> | forall s | s in stems :: ParsedUpTo(s, most) ensures OrdersStems(stems) {
        ParsedIsOrdered(most, stems);
      }
    } else {
      var stems := ParsedIsTangled(most);
    }
  }
}
