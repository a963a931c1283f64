/**
 * The template layer: the data a template sees, the rendering call with its
 * two fallback texts, and the helper functions registered with the engine.
 *
 * The helpers work on the code points that Go's `range` loop decodes from a
 * string (Dafny's `string`); for the valid UTF-8 the program handles this is
 * the same string.
 */
module Templates {
  import opened Wrappers
  import opened Text

  // ---------------------------------------------------------------- data

  /** The part of an A2S_INFO answer the core reads. */
  datatype Info = Info(appId: nat, players: nat, maxPlayers: nat, keywords: Bytes)

  /** Game-specific data parsed from the keywords by an external parser. */
  datatype Extra = NoExtra | Arma3Extra(source: Bytes) | DayZExtra(playersQueue: nat, source: Bytes)

  /** `TemplateData`: what a template is executed against. */
  datatype TemplateData = TemplateData(info: Option<Info>, extra: Extra, id: Bytes, host: Bytes, port: int)

  // ----------------------------------------------------------- rendering

  /** What the external template engine does with a template and its data. */
  datatype EngineOutcome = ParseFailed | ExecFailed | Output(text: Bytes)

  type Engine = (Bytes, TemplateData) -> EngineOutcome

  /** `render`'s pair of results: the text, and whether an error came with it. */
  datatype Rendered = Rendered(text: Bytes, failed: bool)

  /** The parse-failure warning, "\U{26D4} template error", as UTF-8 bytes. */
  function ParseErrorText(): (r: Bytes)
    ensures |r| == 18
  { EncodeRune('\U{26D4}') + Ascii(" template error") }

  /** The execution-failure warning, "\U{26A0}\U{FE0F} template error", as UTF-8 bytes. */
  function ExecErrorText(): (r: Bytes)
    ensures |r| == 21
  { EncodeRune('\U{26A0}') + EncodeRune('\U{FE0F}') + Ascii(" template error") }

  /** `TemplateData.render`: the engine's output, or a fixed warning text on failure. */
  function Render(tpl: Bytes, data: TemplateData, engine: Engine): (r: Rendered)
    ensures r.failed <==> !engine(tpl, data).Output?
    ensures !r.failed ==> r.text == engine(tpl, data).text
    ensures engine(tpl, data).ParseFailed? ==> r.text == ParseErrorText()
    ensures engine(tpl, data).ExecFailed? ==> r.text == ExecErrorText()
    ensures r.failed ==> r.text != []
  {
    match engine(tpl, data)
    case ParseFailed => Rendered(ParseErrorText(), true)
    case ExecFailed => Rendered(ExecErrorText(), true)
    case Output(text) => Rendered(text, false)
  }

  // ---------------------------------------------------- case and spaces

  /**
   * Go's `unicode.ToLower` as far as it can change a result here: ASCII,
   * and the two non-ASCII runes whose lower case is ASCII.
   */
  function LowerRune(c: char): char {
    if 'A' <= c <= 'Z' then (c as int + 32) as char
    else if c == '\U{0130}' then 'i'
    else if c == '\U{212A}' then 'k'
    else c
  }

  /** Go's `unicode.ToUpper` likewise: ASCII, and the two non-ASCII runes whose upper case is ASCII. */
  function UpperRune(c: char): (r: char)
    ensures 'a' <= c <= 'z' ==> 'A' <= r <= 'Z' && LowerRune(r) == c
    ensures c as int < 0x80 && !('a' <= c <= 'z') ==> r == c
  {
    if 'a' <= c <= 'z' then (c as int - 32) as char
    else if c == '\U{0131}' then 'I'
    else if c == '\U{017F}' then 'S'
    else c
  }

  /** `strings.ToLower` */
  function Lower(s: string): (r: string)
    ensures |r| == |s|
    ensures forall i :: 0 <= i < |s| ==> r[i] == LowerRune(s[i])
  {
    seq(|s|, i requires 0 <= i < |s| => LowerRune(s[i]))
  }

  lemma LowerIdempotent(s: string)
    ensures Lower(Lower(s)) == Lower(s)
  {
  }

  /** `unicode.IsSpace` */
  predicate IsSpaceRune(c: char) {
    || '\U{0009}' <= c <= '\U{000D}' || c == ' ' || c == '\U{0085}' || c == '\U{00A0}'
    || c == '\U{1680}' || '\U{2000}' <= c <= '\U{200A}' || c == '\U{2028}' || c == '\U{2029}'
    || c == '\U{202F}' || c == '\U{205F}' || c == '\U{3000}'
  }

  function TrimLeft(s: string): (r: string)
    ensures r == [] || !IsSpaceRune(r[0])
  {
    if s != [] && IsSpaceRune(s[0]) then TrimLeft(s[1..]) else s
  }

  function TrimRight(s: string): (r: string)
    ensures r == [] || !IsSpaceRune(r[|r| - 1])
  {
    if s != [] && IsSpaceRune(s[|s| - 1]) then TrimRight(s[..|s| - 1]) else s
  }

  /** `strings.TrimSpace` */
  function TrimSpace(s: string): string {
    TrimRight(TrimLeft(s))
  }

  lemma {:induction false} TrimLeftIsSuffix(s: string)
    ensures |TrimLeft(s)| <= |s| && TrimLeft(s) == s[|s| - |TrimLeft(s)|..]
  {
    if s != [] && IsSpaceRune(s[0]) {
      TrimLeftIsSuffix(s[1..]);
    }
  }

  lemma {:induction false} TrimRightIsPrefix(s: string)
    ensures |TrimRight(s)| <= |s| && TrimRight(s) == s[..|TrimRight(s)|]
  {
    if s != [] && IsSpaceRune(s[|s| - 1]) {
      TrimRightIsPrefix(s[..|s| - 1]);
    }
  }

  /** The trimmed string is a piece of the input with white space at neither end. */
  lemma TrimSpaceEnds(s: string)
    ensures var r := TrimSpace(s);
      |r| <= |s| && (r == [] || (!IsSpaceRune(r[0]) && !IsSpaceRune(r[|r| - 1])))
  {
    TrimLeftIsSuffix(s);
    TrimRightIsPrefix(TrimLeft(s));
  }

  lemma {:induction false} TrimRightOfTrimLeftSnoc(s: string, c: char)
    requires IsSpaceRune(c)
    ensures TrimRight(TrimLeft(s + [c])) == TrimRight(TrimLeft(s))
  {
    if s == [] {
      assert ([c])[1..] == [];
    } else if IsSpaceRune(s[0]) {
      assert (s + [c])[1..] == s[1..] + [c];
      TrimRightOfTrimLeftSnoc(s[1..], c);
    } else {
      assert (s + [c])[..|s|] == s;
    }
  }

  /** Every rune of `s` is white space. */
  predicate AllSpace(s: string) {
    forall i :: 0 <= i < |s| ==> IsSpaceRune(s[i])
  }

  lemma {:induction false} TrimLeftOfSpaces(before: string, s: string)
    requires AllSpace(before)
    ensures TrimLeft(before + s) == TrimLeft(s)
  {
    if before != [] {
      assert (before + s)[0] == before[0];
      assert (before + s)[1..] == before[1..] + s;
      assert AllSpace(before[1..]) by {
        forall i | 0 <= i < |before[1..]| ensures IsSpaceRune(before[1..][i]) {
          assert before[1..][i] == before[i + 1];
        }
      }
      TrimLeftOfSpaces(before[1..], s);
    } else {
      assert before + s == s;
    }
  }

  lemma {:induction false} TrimSpaceOfTrailingSpaces(s: string, after: string)
    requires AllSpace(after)
    ensures TrimRight(TrimLeft(s + after)) == TrimRight(TrimLeft(s))
    decreases |after|
  {
    if after != [] {
      var init := after[..|after| - 1];
      assert s + after == (s + init) + [after[|after| - 1]];
      TrimRightOfTrimLeftSnoc(s + init, after[|after| - 1]);
      assert AllSpace(init) by {
        forall i | 0 <= i < |init| ensures IsSpaceRune(init[i]) {
          assert init[i] == after[i];
        }
      }
      TrimSpaceOfTrailingSpaces(s, init);
    } else {
      assert s + after == s;
    }
  }

  /** White space around a string, however much, is trimmed away whatever the string is. */
  lemma TrimSpaceSurrounding(s: string, before: string, after: string)
    requires AllSpace(before) && AllSpace(after)
    ensures TrimSpace(before + s + after) == TrimSpace(s)
  {
    assert before + s + after == before + (s + after);
    TrimLeftOfSpaces(before, s + after);
    TrimSpaceOfTrailingSpaces(s, after);
  }

  // ------------------------------------------------------------- TimeEmoji

  const Moon: string := "\U{1F319}"
  const Sun: string := "\U{1F31E}"

  /** `tplHelperTimeEmoji` over the hour of the given time. */
  function TimeEmoji(hour: int): (r: string)
    ensures r == Moon <==> hour < 7 || hour > 20
    ensures r == Sun <==> 7 <= hour <= 20
  {
    if hour < 7 || hour > 20 then Moon else Sun
  }

  // --------------------------------------------------------------- OSEmoji

  const Apple: string := "\U{1F34E}"
  const Penguin: string := "\U{1F427}"
  const Window: string := "\U{1FA9F}"
  const Devil: string := "\U{1F608}"

  const AppleNames: set<string> := {"a", "m", "apple", "mac", "osx", "ios"}
  const LinuxNames: set<string> := {"l", "nix", "linux", "tux"}
  const WindowsNames: set<string> := {"w", "win", "windows", "nt"}

  /** `tplHelperOSEmoji`: the lower-cased name picks the emoji; anything else is the BSD daemon. */
  function OSEmoji(name: string): (r: string)
    ensures r == Apple <==> Lower(name) in AppleNames
    ensures r == Penguin <==> Lower(name) in LinuxNames
    ensures r == Window <==> Lower(name) in WindowsNames
    ensures r == Devil <==> Lower(name) !in AppleNames + LinuxNames + WindowsNames
  {
    var n := Lower(name);
    if n in AppleNames then Apple
    else if n in LinuxNames then Penguin
    else if n in WindowsNames then Window
    else Devil
  }

  /** The OS name is compared without regard to case. */
  lemma OSEmojiIgnoresCase(name: string)
    ensures OSEmoji(Lower(name)) == OSEmoji(name)
    ensures OSEmoji("LINUX") == Penguin && OSEmoji("Windows") == Window && OSEmoji("FreeBSD") == Devil
  {
    LowerIdempotent(name);
    assert Lower("LINUX") == "linux";
    assert Lower("Windows") == "windows";
    assert Lower("FreeBSD") == "freebsd";
  }

  // ------------------------------------------------------------- CodeEmoji

  const WhiteFlag: string := "\U{1F3F3}\U{FE0F}"

  /** A code `tplHelperCodeEmoji` turns into a flag: exactly two letters A to Z. */
  predicate IsCode(code: string) {
    |code| == 2 && 'A' <= code[0] <= 'Z' && 'A' <= code[1] <= 'Z'
  }

  const FirstIndicator: int := 0x1F1E6

  predicate IsRegionalIndicator(c: char) {
    FirstIndicator <= c as int < FirstIndicator + 26
  }

  /** `0x1F1E6 + (char - 'A')`: the Regional Indicator Symbol of a capital letter. */
  function Indicator(c: char): (r: char)
    requires 'A' <= c <= 'Z'
    ensures IsRegionalIndicator(r)
  {
    (FirstIndicator + (c as int - 'A' as int)) as char
  }

  /** The letter a Regional Indicator Symbol stands for. */
  function IndicatorLetter(r: char): (c: char)
    requires IsRegionalIndicator(r)
    ensures 'A' <= c <= 'Z'
  {
    ('A' as int + (r as int - FirstIndicator)) as char
  }

  /** What `tplHelperCodeEmoji` returns. */
  function Flag(code: string): (r: string)
    ensures |r| == 2
  {
    if IsCode(code) then [Indicator(code[0]), Indicator(code[1])] else WhiteFlag
  }

  /** Reading a flag back: the two letters of a pair of Regional Indicator Symbols. */
  function FlagCode(flag: string): Option<string> {
    if |flag| == 2 && IsRegionalIndicator(flag[0]) && IsRegionalIndicator(flag[1])
    then Some([IndicatorLetter(flag[0]), IndicatorLetter(flag[1])])
    else None
  }

  /** Every code is recovered from its flag, and no non-code yields a readable flag. */
  lemma FlagRoundTrip(code: string)
    ensures IsCode(code) ==> FlagCode(Flag(code)) == Some(code)
    ensures !IsCode(code) ==> FlagCode(Flag(code)) == None && Flag(code) == WhiteFlag
  {
    if IsCode(code) {
      assert [IndicatorLetter(Indicator(code[0])), IndicatorLetter(Indicator(code[1]))] == code;
    }
  }

  /** Two codes with the same flag are the same code. */
  lemma FlagInjective(a: string, b: string)
    requires IsCode(a) && IsCode(b) && Flag(a) == Flag(b)
    ensures a == b
  {
    FlagRoundTrip(a);
    FlagRoundTrip(b);
  }

  /** `tplHelperCodeEmoji`: fills the two runes one letter at a time, giving up at the first non-letter. */
  method CodeEmoji(code: string) returns (r: string)
    ensures r == Flag(code)
  {
    if |code| != 2 {
      return WhiteFlag;
    }
    var runes := new char[2];
    var i := 0;
    while i < |code|
      invariant 0 <= i <= |code|
      invariant forall j :: 0 <= j < i ==> 'A' <= code[j] <= 'Z' && runes[j] == Indicator(code[j])
    {
      var ch := code[i];
      if ch < 'A' || ch > 'Z' {
        return WhiteFlag;
      }
      runes[i] := Indicator(ch);
      i := i + 1;
    }
    r := runes[..];
  }

  // ---------------------------------------------------------- CountryEmoji

  /** The names the automatic first-two-letters rule would get wrong. */
  const CountryExceptions: map<string, string> := map[
    "united kingdom" := "GB",
    "usa" := "US",
    "united states" := "US",
    "south korea" := "KR",
    "south africa" := "ZA",
    "new zealand" := "NZ",
    "north korea" := "KP",
    "east timor" := "TL",
    "united arab emirates" := "AE"
  ]

  lemma ExceptionsAreCodes()
    ensures forall name :: name in CountryExceptions ==> IsCode(CountryExceptions[name])
  {
  }

  /**
   * `unicode.IsLetter`: ASCII letters are decided here; for other runes the
   * Unicode letter table is the external `unicodeLetter`.
   */
  predicate IsLetterRune(c: char, unicodeLetter: char -> bool) {
    if c as int < 0x80 then 'a' <= c <= 'z' || 'A' <= c <= 'Z' else unicodeLetter(c)
  }

  /** The first `k` letters of `s`, upper-cased. */
  function FirstLetters(s: string, k: nat, unicodeLetter: char -> bool): (r: string)
    ensures |r| <= k && |r| <= |s|
  {
    if s == [] || k == 0 then []
    else if IsLetterRune(s[0], unicodeLetter) then [UpperRune(s[0])] + FirstLetters(s[1..], k - 1, unicodeLetter)
    else FirstLetters(s[1..], k, unicodeLetter)
  }

  /** What `tplHelperCountryEmoji` returns. */
  function CountryFlag(name: string, unicodeLetter: char -> bool): (r: string)
    ensures r == WhiteFlag || FlagCode(r).Some?
  {
    var lowerName := Lower(TrimSpace(name));
    var letters := FirstLetters(lowerName, 2, unicodeLetter);
    FlagRoundTrip(if lowerName in CountryExceptions then CountryExceptions[lowerName] else letters);
    if lowerName in CountryExceptions then Flag(CountryExceptions[lowerName])
    else if |Utf8(lowerName)| >= 2 && |letters| == 2 then Flag(letters)
    else WhiteFlag
  }

  /** The letter loop of `tplHelperCountryEmoji`: collect upper-cased letters, stop at the second. */
  method CollectLetters(lowerName: string, unicodeLetter: char -> bool) returns (letters: string)
    ensures letters == FirstLetters(lowerName, 2, unicodeLetter)
  {
    letters := [];
    var i := 0;
    while i < |lowerName|
      invariant 0 <= i <= |lowerName|
      invariant |letters| < 2
      invariant letters + FirstLetters(lowerName[i..], 2 - |letters|, unicodeLetter)
                == FirstLetters(lowerName, 2, unicodeLetter)
    {
      var c := lowerName[i];
      assert lowerName[i..][1..] == lowerName[i + 1..];
      if IsLetterRune(c, unicodeLetter) {
        letters := letters + [UpperRune(c)];
        if |letters| == 2 {
          break;
        }
      }
      i := i + 1;
    }
    assert i == |lowerName| ==> lowerName[i..] == [];
  }

  /** `tplHelperCountryEmoji`: exception table first, else the first two letters. */
  method CountryEmoji(name: string, unicodeLetter: char -> bool) returns (r: string)
    ensures r == CountryFlag(name, unicodeLetter)
  {
    var lowerName := Lower(TrimSpace(name));
    if lowerName in CountryExceptions {
      r := CodeEmoji(CountryExceptions[lowerName]);
      return;
    }
    if |Utf8(lowerName)| >= 2 {
      var letters := CollectLetters(lowerName, unicodeLetter);
      if |letters| == 2 {
        r := CodeEmoji(letters);
        return;
      }
    }
    r := WhiteFlag;
  }

  /** A name whose normal form is in the table gets that entry's flag. */
  lemma CountryFlagFromTable(name: string, unicodeLetter: char -> bool)
    requires Lower(TrimSpace(name)) in CountryExceptions
    ensures CountryFlag(name, unicodeLetter) == Flag(CountryExceptions[Lower(TrimSpace(name))])
  {
  }

  /** A string with no white space at either end is its own trimmed form. */
  lemma TrimSpaceUnchanged(s: string)
    requires s != [] && !IsSpaceRune(s[0]) && !IsSpaceRune(s[|s| - 1])
    ensures TrimSpace(s) == s
  {
  }

  lemma NormalizedUsa()
    ensures Lower(TrimSpace("USA")) == "usa"
    ensures Lower(TrimSpace("united states")) == "united states"
  {
    TrimSpaceUnchanged("USA");
    TrimSpaceUnchanged("united states");
  }

  lemma CountryFlagOfUsa(unicodeLetter: char -> bool)
    ensures CountryFlag("USA", unicodeLetter) == Flag("US")
    ensures CountryFlag("united states", unicodeLetter) == Flag("US")
  {
    NormalizedUsa();
    assert CountryExceptions["usa"] == "US" && CountryExceptions["united states"] == "US";
    CountryFlagFromTable("USA", unicodeLetter);
    CountryFlagFromTable("united states", unicodeLetter);
  }

  lemma NormalizedUnitedKingdom()
    ensures Lower(TrimSpace("United Kingdom")) == "united kingdom"
  {
    TrimSpaceUnchanged("United Kingdom");
  }

  lemma CountryFlagOfUnitedKingdom(unicodeLetter: char -> bool)
    ensures CountryFlag("United Kingdom", unicodeLetter) == Flag("GB")
  {
    NormalizedUnitedKingdom();
    assert CountryExceptions["united kingdom"] == "GB";
    CountryFlagFromTable("United Kingdom", unicodeLetter);
  }

  lemma NormalizedGermany()
    ensures Lower(TrimSpace("Germany")) == "germany"
  {
    TrimSpaceUnchanged("Germany");
  }

  lemma FirstLettersOfGermany(unicodeLetter: char -> bool)
    ensures FirstLetters("germany", 2, unicodeLetter) == "GE"
  {
    assert "germany"[1..] == "ermany" && "ermany"[1..] == "rmany";
    assert FirstLetters("rmany", 0, unicodeLetter) == [];
    assert FirstLetters("ermany", 1, unicodeLetter) == "E";
  }

  /** Outside the table the first two letters are taken: "Germany" gets the flag of GE. */
  lemma CountryFlagOfGermany(unicodeLetter: char -> bool)
    ensures CountryFlag("Germany", unicodeLetter) == Flag("GE")
  {
    NormalizedGermany();
    FirstLettersOfGermany(unicodeLetter);
    assert "germany" !in CountryExceptions;
    assert |Utf8("germany")| >= 2;
  }

  /** Fewer than two letters after the table lookup fails means the white flag. */
  lemma CountryFlagNeedsTwoLetters(name: string, unicodeLetter: char -> bool)
    requires Lower(TrimSpace(name)) !in CountryExceptions
    requires |FirstLetters(Lower(TrimSpace(name)), 2, unicodeLetter)| < 2
    ensures CountryFlag(name, unicodeLetter) == WhiteFlag
  {
  }

  /** Surrounding white space does not change the flag. */
  lemma CountryFlagIgnoresSurroundingSpace(name: string, before: string, after: string, unicodeLetter: char -> bool)
    requires AllSpace(before) && AllSpace(after)
    ensures CountryFlag(before + name + after, unicodeLetter) == CountryFlag(name, unicodeLetter)
  {
    TrimSpaceSurrounding(name, before, after);
  }

  /**
   * Outside the table, two letters give the flag of those letters, upper-cased;
   * the byte-length guard never decides, since two letters take at least two bytes.
   */
  lemma CountryFlagOfLetters(name: string, unicodeLetter: char -> bool)
    requires Lower(TrimSpace(name)) !in CountryExceptions
    requires |FirstLetters(Lower(TrimSpace(name)), 2, unicodeLetter)| == 2
    ensures CountryFlag(name, unicodeLetter) == Flag(FirstLetters(Lower(TrimSpace(name)), 2, unicodeLetter))
    ensures |Utf8(Lower(TrimSpace(name)))| >= 2
  {
  }

  // ------------------------------------------------------ ValueColorEmoji

  const Purple: string := "\U{1F7E3}"
  const Prohibited: string := "\U{1F6AB}"
  const Blue: string := "\U{1F535}"
  const Green: string := "\U{1F7E2}"
  const Yellow: string := "\U{1F7E1}"
  const Orange: string := "\U{1F7E0}"
  const Red: string := "\U{1F534}"

  /** The colour of `value` out of `limit`, with the proportion computed exactly. */
  function ValueColor(value: int, limit: int): (r: string)
    ensures r == Purple <==> value == 0
    ensures r == Prohibited <==> value != 0 && (value < 0 || value > limit)
  {
    if value == 0 then Purple
    else if value < 0 || value > limit then Prohibited
    else
      var proportion := value as real / limit as real;
      if proportion <= 0.1 then Blue
      else if proportion <= 0.5 then Green
      else if proportion <= 0.75 then Yellow
      else if proportion <= 0.9 then Orange
      else Red
  }

  lemma ProportionAtMost(value: int, limit: int, num: int, den: int)
    requires 1 <= value <= limit && den > 0
    ensures value as real / limit as real <= num as real / den as real <==> value * den <= num * limit
  {
    var v, l, n, d := value as real, limit as real, num as real, den as real;
    assert v / l * (l * d) == v * d;
    assert n / d * (l * d) == n * l;
    assert (v / l <= n / d) <==> (v / l * (l * d) <= n / d * (l * d));
  }

  /**
   * The colour bands as integer comparisons: zero first, then out of range,
   * then inclusive thresholds at 10%, 50%, 75% and 90% of the limit.
   */
  lemma ValueColorBands(value: int, limit: int)
    ensures value == 0 ==> ValueColor(value, limit) == Purple
    ensures value != 0 && (value < 0 || value > limit) ==> ValueColor(value, limit) == Prohibited
    ensures ValueColor(value, limit) !in {Purple, Prohibited} ==> 1 <= value <= limit
    ensures 1 <= value <= limit ==>
      && (ValueColor(value, limit) == Blue <==> 10 * value <= limit)
      && (ValueColor(value, limit) == Green <==> limit < 10 * value && 2 * value <= limit)
      && (ValueColor(value, limit) == Yellow <==> limit < 2 * value && 4 * value <= 3 * limit)
      && (ValueColor(value, limit) == Orange <==> 3 * limit < 4 * value && 10 * value <= 9 * limit)
      && (ValueColor(value, limit) == Red <==> 9 * limit < 10 * value)
  {
    if 1 <= value <= limit {
      ProportionAtMost(value, limit, 1, 10);
      ProportionAtMost(value, limit, 1, 2);
      ProportionAtMost(value, limit, 3, 4);
      ProportionAtMost(value, limit, 9, 10);
      assert 0.1 == 1 as real / 10 as real;
      assert 0.5 == 1 as real / 2 as real;
      assert 0.75 == 3 as real / 4 as real;
      assert 0.9 == 9 as real / 10 as real;
    }
  }

  /** The dynamically typed arguments a template passes, by the kind `reflect` reports. */
  datatype Arg =
    | SignedArg(i: int64)            // int, int64
    | UnsignedArg(u: nat)            // uint8, uint16, uint32
    | Unsigned64Arg(u: nat)          // uint64
    | StringArg(s: Bytes)            // string
    | OtherArg                       // any other kind

  const TwoTo64: int := 0x1_0000_0000_0000_0000

  /** `toInt64`, except for the float kinds. */
  function ToInt64(v: Arg): (r: int64)
    requires v.UnsignedArg? ==> v.u < 0x1_0000_0000
    requires v.Unsigned64Arg? ==> v.u < TwoTo64
    ensures v.StringArg? && ParseInt(v.s).Some? ==> r == ParseInt(v.s).value
    ensures v.StringArg? && ParseInt(v.s).None? ==> r == 0
    ensures v.OtherArg? ==> r == 0
  {
    match v
    case SignedArg(i) => i
    case UnsignedArg(u) => u
    case Unsigned64Arg(u) => if u <= Int64Max then u else u - TwoTo64
    case StringArg(s) => (match ParseInt(s) case Some(i) => i case None => 0)
    case OtherArg => 0
  }

  /** The string branch of `toInt64` reads back every formatted int64, and turns garbage into 0. */
  lemma ToInt64OfString(n: int64, junk: Bytes)
    requires ParseInt(junk).None?
    ensures ToInt64(StringArg(Decimal(n))) == n
    ensures ToInt64(StringArg(junk)) == 0
    ensures ToInt64(StringArg(Ascii("12abc"))) == 0 && ToInt64(StringArg([])) == 0
  {
    ParseDecimal(n);
    assert !IsDigit(Ascii("12abc")[2]);
  }

  /** The 64-bit unsigned branch wraps around like Go's `int64(uint64)`. */
  lemma ToInt64OfUnsigned64(u: nat)
    requires u < TwoTo64
    ensures ToInt64(Unsigned64Arg(u)) == if u < 0x8000_0000_0000_0000 then u else u - TwoTo64
    ensures (ToInt64(Unsigned64Arg(u)) - u) % TwoTo64 == 0
  {
  }

  /** `tplHelperValueColorEmoji` */
  function ValueColorEmoji(from: Arg, to: Arg): (r: string)
    requires from.UnsignedArg? ==> from.u < 0x1_0000_0000
    requires from.Unsigned64Arg? ==> from.u < TwoTo64
    requires to.UnsignedArg? ==> to.u < 0x1_0000_0000
    requires to.Unsigned64Arg? ==> to.u < TwoTo64
    ensures r == Purple <==> ToInt64(from) == 0
    ensures from.StringArg? && ParseInt(from.s).None? ==> r == Purple
  {
    ValueColor(ToInt64(from), ToInt64(to))
  }
}
