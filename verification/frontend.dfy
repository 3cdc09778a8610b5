/**
 * The two pure rules of the single-page front end: the description shown
 * next to a CPV code and the confidence band of a prediction.
 */
module Frontend {
  import opened Wrappers
  import opened Strings

  /**
   * A value of the CPV dictionary. An object (or array) is kept as its
   * string-valued fields, a missing field reading as the falsy `""`; any
   * other JSON value only matters for its truthiness.
   */
  datatype Entry = Translations(text: map<string, string>) | Scalar(truthy: bool)

  type Dict = map<string, Entry>

  /** The text shown while no description is available, per interface language. */
  function Placeholder(lang: string): string {
    if lang == "en" then "Description coming soon for this CPV."
    else if lang == "ua" then "Опис для цього CPV невдовзі."
    else "Opis dla tego CPV w przygotowaniu."
  }

  predicate Truthy(e: Entry) {
    e.Translations? || e.truthy
  }

  /** `cpvDict[key]` when it is truthy; `None` stands for every falsy outcome. */
  function TruthyLookup(d: Dict, key: string): (r: Option<Entry>)
    ensures r.Some? <==> key in d && Truthy(d[key])
    ensures r.Some? ==> r.value == d[key]
  {
    if key in d && Truthy(d[key]) then Some(d[key]) else None
  }

  /** `${code}-${k}`: a code with check digit `k` appended. */
  function CheckKey(code: string, k: nat): string
    requires k < 10
  {
    code + "-" + [DigitChar(k)]
  }

  /** The loop over check digits `i .. 9`: the first key present with a truthy value. */
  function ProbeFrom(d: Dict, code: string, i: nat): (r: Option<Entry>)
    requires i <= 10
    ensures r.None? <==> forall k :: i <= k < 10 ==> TruthyLookup(d, CheckKey(code, k)).None?
    ensures r.Some? ==> exists k :: i <= k < 10 && r == TruthyLookup(d, CheckKey(code, k))
    decreases 10 - i
  {
    if i == 10 then None
    else
      var here := TruthyLookup(d, CheckKey(code, i));
      if here.Some? then here else ProbeFrom(d, code, i + 1)
  }

  /** The probe returns the entry of the smallest check digit whose key is present. */
  lemma {:induction false} ProbeFindsFirst(d: Dict, code: string, i: nat, k: nat)
    requires i <= k < 10
    requires TruthyLookup(d, CheckKey(code, k)).Some?
    requires forall m :: i <= m < k ==> TruthyLookup(d, CheckKey(code, m)).None?
    ensures ProbeFrom(d, code, i) == TruthyLookup(d, CheckKey(code, k))
    decreases k - i
  {
    if i < k {
      ProbeFindsFirst(d, code, i + 1, k);
    }
  }

  /**
   * The entry for a code: the exact key first, then, only for an eight-digit
   * code without a minus sign, the keys with a check digit appended.
   */
  function FindEntry(d: Dict, code: string): (r: Option<Entry>)
    ensures TruthyLookup(d, code).Some? ==> r == TruthyLookup(d, code)
    ensures TruthyLookup(d, code).None? && ('-' in code || |code| != 8) ==> r.None?
    ensures TruthyLookup(d, code).None? && '-' !in code && |code| == 8 ==> r == ProbeFrom(d, code, 0)
    ensures r.Some? ==> Truthy(r.value)
  {
    var exact := TruthyLookup(d, code);
    if exact.None? && '-' !in code && |code| == 8 then ProbeFrom(d, code, 0) else exact
  }

  /** A field of an entry, `""` when absent. */
  function EntryField(e: map<string, string>, key: string): string {
    if key in e then e[key] else ""
  }

  /** The first non-empty text of a preference list, `""` when there is none. */
  function FirstNonEmpty(texts: seq<string>): (s: string)
    ensures s == "" <==> forall i :: 0 <= i < |texts| ==> texts[i] == ""
    ensures s != "" ==> exists i :: 0 <= i < |texts| && texts[i] == s
                                    && forall j :: 0 <= j < i ==> texts[j] == ""
  {
    if |texts| == 0 then ""
    else if texts[0] != "" then texts[0]
    else
      var s := FirstNonEmpty(texts[1..]);
      assert s != "" ==> exists i :: 1 <= i < |texts| && texts[i] == s
                                      && forall j :: 0 <= j < i ==> texts[j] == "" by {
        if s != "" {
          var i :| 0 <= i < |texts[1..]| && texts[1..][i] == s
                   && forall j :: 0 <= j < i ==> texts[1..][j] == "";
          assert texts[i + 1] == s;
        }
      }
      s
  }

  /** `entry[lang] || entry.en || entry.pl || ''`. */
  function Preferred(e: map<string, string>, lang: string): (s: string)
    ensures EntryField(e, lang) != "" ==> s == EntryField(e, lang)
    ensures EntryField(e, lang) == "" && EntryField(e, "en") != "" ==> s == EntryField(e, "en")
    ensures EntryField(e, lang) == "" && EntryField(e, "en") == "" ==> s == EntryField(e, "pl")
  {
    var texts := [EntryField(e, lang), EntryField(e, "en"), EntryField(e, "pl")];
    var s := FirstNonEmpty(texts);
    assert texts[1] != "" ==> s != "" by {
      assert !(forall i :: 0 <= i < |texts| ==> texts[i] == "") <== texts[1] != "";
    }
    assert texts[2] != "" ==> s != "" by {
      assert !(forall i :: 0 <= i < |texts| ==> texts[i] == "") <== texts[2] != "";
    }
    assert s != "" ==> s == texts[0] || (texts[0] == "" && s == texts[1])
                       || (texts[0] == "" && texts[1] == "" && s == texts[2]) by {
      if s != "" {
        var i :| 0 <= i < |texts| && texts[i] == s && forall j :: 0 <= j < i ==> texts[j] == "";
        assert i == 0 || i == 1 || i == 2;
      }
    }
    s
  }

  /** The artefacts of a mis-decoded text: U+FFFD or `Ã`. */
  predicate Mojibake(s: string) {
    exists i :: 0 <= i < |s| && (s[i] == '\U{FFFD}' || s[i] == '\U{00C3}')
  }

  /**
   * The text of an object entry: the preferred text, unless it shows
   * mojibake and an English text exists, which is then shown instead.
   */
  function EntryText(e: map<string, string>, lang: string): (s: string)
    ensures Mojibake(Preferred(e, lang)) && EntryField(e, "en") != "" ==> s == EntryField(e, "en")
    ensures !(Mojibake(Preferred(e, lang)) && EntryField(e, "en") != "") ==> s == Preferred(e, lang)
    ensures Mojibake(s) ==> EntryField(e, "en") == "" || s == EntryField(e, "en")
  {
    var preferred := Preferred(e, lang);
    if preferred != "" && Mojibake(preferred) && EntryField(e, "en") != "" && preferred != EntryField(e, "en") then
      EntryField(e, "en")
    else
      preferred
  }

  /**
   * `getCpvDescription(cpv)`: `""` for a null code, the placeholder for an
   * empty dictionary or when no object entry is found, otherwise the text of
   * the entry.
   */
  function CpvDescription(cpv: Option<int>, d: Dict, lang: string): (s: string)
    ensures cpv.None? ==> s == ""
    ensures cpv.Some? && |d| == 0 ==> s == Placeholder(lang)
    ensures cpv.Some? && |d| > 0 ==>
      var entry := FindEntry(d, Decimal(cpv.value));
      && (entry.None? || entry.value.Scalar? ==> s == Placeholder(lang))
      && (entry.Some? && entry.value.Translations? ==> s == EntryText(entry.value.text, lang))
  {
    if cpv.None? then ""
    else if |d| == 0 then Placeholder(lang)
    else
      match FindEntry(d, Decimal(cpv.value))
      case Some(Translations(e)) => EntryText(e, lang)
      case _ => Placeholder(lang)
  }

  /** A code renders as eight characters without a minus sign exactly when it lies in [10^7, 10^8). */
  lemma EightDigitCode(n: int)
    ensures '-' !in Decimal(n) && |Decimal(n)| == 8 <==> 10000000 <= n < 100000000
  {
    DecimalHasMinus(n);
    if n >= 0 {
      EightDigits(n);
    }
  }

  /** An exact key is used before any check digit is tried. */
  lemma ExactMatchFirst(n: int, d: Dict, lang: string, e: map<string, string>)
    requires Decimal(n) in d && d[Decimal(n)] == Translations(e)
    ensures CpvDescription(Some(n), d, lang) == EntryText(e, lang)
  {
  }

  /** Without an exact key, a code outside [10^7, 10^8) shows the placeholder. */
  lemma NoProbeOutsideEightDigits(n: int, d: Dict, lang: string)
    requires TruthyLookup(d, Decimal(n)).None?
    requires !(10000000 <= n < 100000000)
    ensures CpvDescription(Some(n), d, lang) == Placeholder(lang)
  {
    EightDigitCode(n);
  }

  /**
   * Without an exact key, an eight-digit code shows the entry of the smallest
   * check digit whose key is present.
   */
  lemma CheckDigitProbe(n: int, d: Dict, lang: string, k: nat, e: map<string, string>)
    requires 10000000 <= n < 100000000
    requires TruthyLookup(d, Decimal(n)).None?
    requires k < 10 && TruthyLookup(d, CheckKey(Decimal(n), k)) == Some(Translations(e))
    requires forall m :: 0 <= m < k ==> TruthyLookup(d, CheckKey(Decimal(n), m)).None?
    ensures CpvDescription(Some(n), d, lang) == EntryText(e, lang)
  {
    EightDigitCode(n);
    ProbeFindsFirst(d, Decimal(n), 0, k);
  }

  /** The confidence band shown with a prediction. */
  datatype Level = Low | Medium | High

  /** `confidenceLevel`: `null` without a result, else by `confidence * 100` against 70 and 40. */
  function ConfidenceLevel(confidence: Option<real>): (r: Option<Level>)
    ensures r.None? <==> confidence.None?
    ensures r == Some(High) <==> confidence.Some? && confidence.value >= 7.0 / 10.0
    ensures r == Some(Medium) <==> confidence.Some? && 4.0 / 10.0 <= confidence.value < 7.0 / 10.0
    ensures r == Some(Low) <==> confidence.Some? && confidence.value < 4.0 / 10.0
  {
    match confidence
    case None => None
    case Some(c) =>
      var pct := c * 100.0;
      if pct >= 70.0 then Some(High)
      else if pct >= 40.0 then Some(Medium)
      else Some(Low)
  }

  function LevelRank(l: Level): nat {
    match l
    case Low => 0
    case Medium => 1
    case High => 2
  }

  /** A higher confidence never shows a lower band. */
  lemma ConfidenceLevelMonotone(a: real, b: real)
    requires a <= b
    ensures LevelRank(ConfidenceLevel(Some(a)).value) <= LevelRank(ConfidenceLevel(Some(b)).value)
  {
  }
}
