/** SpecParser: turns a retailer's free-text MacBook name into a structured record
    (macbook_scraper/utils/spec_parser.py).

    Each regular expression of the source is a matcher `XAt(s, i)` that says whether
    the pattern matches starting at index `i`, and what its groups hold; `re.search`
    is `Search(s, 0, XAt)`, the leftmost start. The source's patterns only put `\d+`
    and `\s*` in front of tokens that cannot begin with a digit or with whitespace,
    so the greedy run is the only one that can succeed and backtracking never has
    to be modelled. */
module SpecParser {
  import opened Common
  import opened Text

  /** The chip group of a match: `M1`..`M5` upper-cased, and `Pro` or `Max` title-cased. */
  datatype ChipInfo = ChipInfo(chip: string, variant: Option<string>)

  /** Storage as the source records it: size in GB and the text shown for it. */
  datatype Storage = Storage(gb: nat, display: string)

  datatype Unit = GB | TB

  /** The dictionary `parse` returns for a non-empty name. */
  datatype Specs = Specs(
    id: Option<string>,
    modelType: string,
    chip: Option<string>,
    chipVariant: Option<string>,
    screenSize: Option<string>,
    cpuCores: Option<nat>,
    gpuCores: Option<nat>,
    ramGb: Option<nat>,
    storageGb: Option<nat>,
    storageDisplay: Option<string>,
    year: Option<nat>,
    cleanName: Option<string>,
    rawName: string)

  /** `{}` for an empty or missing name, else the full record. */
  datatype ParseResult = Empty | Parsed(specs: Specs)

  const ChipNames: set<string> := {"M1", "M2", "M3", "M4", "M5"}
  const ModelTypes: set<string> := {"MacBook Air", "MacBook Pro", "MacBook"}

  // ---------------------------------------------------------------- model type

  /** `_extract_model_type`: "air" wins over "pro"; neither gives the generic family. */
  function ExtractModelType(name: string): (r: string)
    ensures r in ModelTypes
    ensures r == "MacBook Air" <==> Contains(Lower(name), "air")
    ensures r == "MacBook Pro" <==> !Contains(Lower(name), "air") && Contains(Lower(name), "pro")
  {
    var lower := Lower(name);
    if Contains(lower, "air") then "MacBook Air"
    else if Contains(lower, "pro") then "MacBook Pro"
    else "MacBook"
  }

  // ---------------------------------------------------------------- chip

  /** Where `(M1|M2|M3|M4|M5)` matches, without case. */
  predicate ChipStart(s: string, i: nat) {
    OccursAtNoCase(s, "m", i) && i + 1 < |s| && '1' <= s[i + 1] <= '5'
  }

  /** `(M1|M2|M3|M4|M5)(?:\s*(Pro|Max))?` with IGNORECASE, matched at `i`. */
  function ChipAt(s: string, i: nat): Option<ChipInfo> {
    if ChipStart(s, i) then
      var j := i + 2 + SpaceRun(s, i + 2);
      // group 2 as matched, then `.title()`
      var variant := if OccursAtNoCase(s, "pro", j) then Some("Pro")
                     else if OccursAtNoCase(s, "max", j) then Some("Max")
                     else None;
      Some(ChipInfo(['M', s[i + 1]], variant))
    else None
  }

  /** The variant group after a chip ending at `p`: "Pro" exactly when spaces and then
      "pro" (any case) follow, "Max" when "max" follows instead, otherwise none. */
  predicate VariantFollows(s: string, p: nat, v: Option<string>) {
    var j := p + SpaceRun(s, p);
    && (v == Some("Pro") <==> OccursAtNoCase(s, "pro", j))
    && (v == Some("Max") <==> !OccursAtNoCase(s, "pro", j) && OccursAtNoCase(s, "max", j))
    && (v.None? <==> !OccursAtNoCase(s, "pro", j) && !OccursAtNoCase(s, "max", j))
  }

  /** `full` of `_extract_chip`: "chip variant", or the chip alone. */
  function FullChip(c: ChipInfo): string {
    if c.variant.Some? then c.chip + " " + c.variant.value else c.chip
  }

  /** `_extract_chip`: the leftmost chip mention, or nothing (chip, variant and full all None). */
  function ExtractChip(name: string): (r: Option<ChipInfo>)
    ensures r.None? <==> forall i :: 0 <= i <= |name| ==> !ChipStart(name, i)
    ensures r.Some? ==> r.value.chip in ChipNames
    ensures r.Some? ==> r.value.variant in {None, Some("Pro"), Some("Max")}
    ensures r.Some? ==> exists i :: && 0 <= i < |name| - 1 && ChipStart(name, i)
                          && (forall k :: 0 <= k < i ==> !ChipStart(name, k))
                          && r.value.chip == ['M', name[i + 1]]
                          && VariantFollows(name, i + 2, r.value.variant)
  {
    match Search(name, 0, ChipAt)
    case Some((i, c)) =>
      ChipAtMatch(name, i);
      assert forall k :: 0 <= k < i ==> !ChipStart(name, k) by {
        forall k | 0 <= k < i ensures !ChipStart(name, k) {
          assert ChipAt(name, k).None?;
        }
      }
      Some(c)
    case None =>
      assert forall k :: 0 <= k <= |name| ==> !ChipStart(name, k) by {
        forall k | 0 <= k <= |name| ensures !ChipStart(name, k) {
          assert ChipAt(name, k).None?;
        }
      }
      None
  }

  /** What a chip match at `i` holds: an M1–M5 name read from the text and the variant
      group that follows it. */
  lemma ChipAtMatch(s: string, i: nat)
    requires ChipAt(s, i).Some?
    ensures var c := ChipAt(s, i).value;
            && i < |s| - 1 && ChipStart(s, i) && c.chip == ['M', s[i + 1]] && c.chip in ChipNames
            && c.variant in {None, Some("Pro"), Some("Max")} && VariantFollows(s, i + 2, c.variant)
  {
    var c := ChipAt(s, i).value;
    assert c.chip == ['M', s[i + 1]];
    assert VariantFollows(s, i + 2, c.variant);
  }

  // ---------------------------------------------------------------- screen

  /** `(\d+(?:\.\d+)?)\s*(?:inch|"|'')`, case-sensitive, matched at `i`: group 1. */
  function ScreenAt(s: string, i: nat): (r: Option<string>)
    ensures r.Some? ==> r.value != [] && IsDigit(r.value[0])
  {
    var d := DigitRun(s, i);
    if d == 0 then None
    else
      var j := i + d;
      var f := if j + 1 < |s| && s[j] == '.' && IsDigit(s[j + 1]) then 1 + DigitRun(s, j + 1) else 0;
      var k := j + f;
      var w := k + SpaceRun(s, k);
      if OccursAt(s, "inch", w) || OccursAt(s, "\"", w) || OccursAt(s, "''", w) then Some(s[i..k])
      else None
  }

  /** `_extract_screen_size`: the number followed by `"`, for the leftmost match. */
  function ExtractScreenSize(name: string): (r: Option<string>)
    ensures r.Some? ==> |r.value| >= 2 && r.value[|r.value| - 1] == '"' && IsDigit(r.value[0])
    ensures r.None? <==> forall i :: 0 <= i <= |name| ==> ScreenAt(name, i).None?
    ensures r.Some? ==> exists i :: && 0 <= i <= |name| && ScreenAt(name, i).Some?
                                    && (forall k :: 0 <= k < i ==> ScreenAt(name, k).None?)
                                    && r.value == ScreenAt(name, i).value + "\""
  {
    match Search(name, 0, ScreenAt)
    case Some((i, size)) =>
      assert ScreenAt(name, i).Some?;
      Some(size + "\"")
    case None => None
  }

  /** The screen without its quote, as the id shows it: `screen_size.replace('"', '')`. */
  function RemoveQuotes(s: string): (r: string)
    ensures forall k :: 0 <= k < |r| ==> r[k] != '"'
  {
    if s == [] then []
    else (if s[0] == '"' then [] else [s[0]]) + RemoveQuotes(s[1..])
  }

  // ---------------------------------------------------------------- CPU / GPU cores

  /** `(?:\s|,|$)` at `p`. (`$` before a final newline is covered by `\s`.) */
  predicate BoundaryAt(s: string, p: nat) {
    p == |s| || (p < |s| && (IsSpace(s[p]) || s[p] == ','))
  }

  /** The three core-count patterns of `_extract_cpu_cores` (`letter` = 'c') and
      `_extract_gpu_cores` (`letter` = 'g'), IGNORECASE, matched at `i`:
      form 1 `(\d+)\s*CPU`, form 2 `(\d+)\s*core\s*CPU`, form 3 `(\d+)\s*C(?:PU)?(?:\s|,|$)`. */
  function CoresAt(s: string, i: nat, letter: char, form: nat): Option<nat> {
    var unit := [letter] + "pu";
    var d := DigitRun(s, i);
    if d == 0 then None
    else
      var j := i + d + SpaceRun(s, i + d);
      var ok :=
        if form == 1 then OccursAtNoCase(s, unit, j)
        else if form == 2 then
          OccursAtNoCase(s, "core", j) && OccursAtNoCase(s, unit, j + 4 + SpaceRun(s, j + 4))
        else
          OccursAtNoCase(s, [letter], j)
          && ((OccursAtNoCase(s, "pu", j + 1) && BoundaryAt(s, j + 3)) || BoundaryAt(s, j + 1));
      if ok then Some(DigitsValue(s[i..i + d])) else None
  }

  /** Form `form` matches nowhere in `s`. */
  predicate NoForm(s: string, letter: char, form: nat) {
    forall k :: 0 <= k <= |s| ==> CoresAt(s, k, letter, form).None?
  }

  /** None of the forms tried before `form` matches anywhere. */
  predicate FormAbsentBefore(s: string, letter: char, form: nat) {
    forall f :: 1 <= f < form ==> NoForm(s, letter, f)
  }

  /** The first of the three forms that matches anywhere gives the count, read at its
      leftmost match. */
  function ExtractCores(name: string, letter: char): (r: Option<nat>)
    ensures r.None? <==>
      forall form, i :: 1 <= form <= 3 && 0 <= i <= |name| ==> CoresAt(name, i, letter, form).None?
    ensures r.Some? ==> exists form, i :: && 1 <= form <= 3 && 0 <= i <= |name|
                                          && CoresAt(name, i, letter, form) == r
                                          && FormAbsentBefore(name, letter, form)
                                          && (forall k :: 0 <= k < i ==> CoresAt(name, k, letter, form).None?)
  {
    var at1 := (s: string, i: nat) => CoresAt(s, i, letter, 1);
    var at2 := (s: string, i: nat) => CoresAt(s, i, letter, 2);
    var at3 := (s: string, i: nat) => CoresAt(s, i, letter, 3);
    match Search(name, 0, at1)
    case Some((i, n)) =>
      assert CoresAt(name, i, letter, 1) == Some(n);
      assert forall k :: 0 <= k < i ==> CoresAt(name, k, letter, 1).None? by {
        forall k | 0 <= k < i ensures CoresAt(name, k, letter, 1).None? { assert at1(name, k).None?; }
      }
      assert FormAbsentBefore(name, letter, 1);
      Some(n)
    case None =>
      assert NoForm(name, letter, 1) by {
        forall k | 0 <= k <= |name| ensures CoresAt(name, k, letter, 1).None? { assert at1(name, k).None?; }
      }
      match Search(name, 0, at2)
      case Some((i, n)) =>
        assert CoresAt(name, i, letter, 2) == Some(n);
        assert forall k :: 0 <= k < i ==> CoresAt(name, k, letter, 2).None? by {
          forall k | 0 <= k < i ensures CoresAt(name, k, letter, 2).None? { assert at2(name, k).None?; }
        }
        assert FormAbsentBefore(name, letter, 2);
        Some(n)
      case None =>
        assert NoForm(name, letter, 2) by {
          forall k | 0 <= k <= |name| ensures CoresAt(name, k, letter, 2).None? { assert at2(name, k).None?; }
        }
        match Search(name, 0, at3)
        case Some((i, n)) =>
          assert CoresAt(name, i, letter, 3) == Some(n);
          assert forall k :: 0 <= k < i ==> CoresAt(name, k, letter, 3).None? by {
            forall k | 0 <= k < i ensures CoresAt(name, k, letter, 3).None? { assert at3(name, k).None?; }
          }
          assert FormAbsentBefore(name, letter, 3);
          Some(n)
        case None =>
          assert forall form, i :: 1 <= form <= 3 && 0 <= i <= |name| ==> CoresAt(name, i, letter, form).None? by {
            forall form, i | 1 <= form <= 3 && 0 <= i <= |name|
              ensures CoresAt(name, i, letter, form).None?
            {
              if form == 1 { assert at1(name, i).None?; }
              else if form == 2 { assert at2(name, i).None?; }
              else { assert at3(name, i).None?; }
            }
          }
          None
  }

  function ExtractCpuCores(name: string): Option<nat> { ExtractCores(name, 'c') }

  function ExtractGpuCores(name: string): Option<nat> { ExtractCores(name, 'g') }

  // ---------------------------------------------------------------- RAM

  /** `(\d+)\s*GB(?!\s*SSD)`, IGNORECASE, at `i`: a GB figure not followed by SSD. */
  function GbNotSsdAt(s: string, i: nat): Option<nat> {
    var d := DigitRun(s, i);
    var j := i + d + SpaceRun(s, i + d);
    if d > 0 && OccursAtNoCase(s, "gb", j) && !OccursAtNoCase(s, "ssd", j + 2 + SpaceRun(s, j + 2))
    then Some(DigitsValue(s[i..i + d])) else None
  }

  /** `(\d+)\s*GB\s*RAM`, IGNORECASE, at `i`. */
  function GbRamAt(s: string, i: nat): Option<nat> {
    var d := DigitRun(s, i);
    var j := i + d + SpaceRun(s, i + d);
    if d > 0 && OccursAtNoCase(s, "gb", j) && OccursAtNoCase(s, "ram", j + 2 + SpaceRun(s, j + 2))
    then Some(DigitsValue(s[i..i + d])) else None
  }

  /** `RAM\s*(\d+)\s*GB`, IGNORECASE, at `i`. */
  function RamGbAt(s: string, i: nat): Option<nat> {
    var j := i + 3 + SpaceRun(s, i + 3);
    var d := DigitRun(s, j);
    if OccursAtNoCase(s, "ram", i) && d > 0 && OccursAtNoCase(s, "gb", j + d + SpaceRun(s, j + d))
    then Some(DigitsValue(s[j..j + d])) else None
  }

  /** `_extract_ram`: only when some GB figure is not followed by SSD; then "N GB RAM",
      else "RAM N GB", else the first GB figure not followed by SSD. */
  function ExtractRam(name: string): (r: Option<nat>)
    ensures r.None? <==> !Found(name, GbNotSsdAt)
    ensures r.Some? && Found(name, GbRamAt) ==> r == Some(Search(name, 0, GbRamAt).value.1)
    ensures r.Some? && !Found(name, GbRamAt) && Found(name, RamGbAt)
            ==> r == Some(Search(name, 0, RamGbAt).value.1)
    ensures r.Some? && !Found(name, GbRamAt) && !Found(name, RamGbAt)
            ==> r == Some(Search(name, 0, GbNotSsdAt).value.1)
  {
    if Search(name, 0, GbNotSsdAt).None? then None
    else
      match Search(name, 0, GbRamAt)
      case Some((_, n)) => Some(n)
      case None =>
        match Search(name, 0, RamGbAt)
        case Some((_, n)) => Some(n)
        case None => Some(Search(name, 0, GbNotSsdAt).value.1)
  }

  // ---------------------------------------------------------------- storage

  /** `(\d+)\s*TB(?:\s*SSD)?`, IGNORECASE, at `i` (the optional SSD does not change the value). */
  function TbAt(s: string, i: nat): Option<nat> {
    var d := DigitRun(s, i);
    if d > 0 && OccursAtNoCase(s, "tb", i + d + SpaceRun(s, i + d)) then Some(DigitsValue(s[i..i + d]))
    else None
  }

  /** `(\d+)\s*GB\s*SSD`, IGNORECASE, at `i`. */
  function GbSsdAt(s: string, i: nat): Option<nat> {
    var d := DigitRun(s, i);
    var j := i + d + SpaceRun(s, i + d);
    if d > 0 && OccursAtNoCase(s, "gb", j) && OccursAtNoCase(s, "ssd", j + 2 + SpaceRun(s, j + 2))
    then Some(DigitsValue(s[i..i + d])) else None
  }

  /** `SSD\s*(\d+)\s*(?:GB|TB)`, IGNORECASE, at `i`, with the unit matched
      (the match text contains "TB" exactly when the unit is TB). */
  function SsdSizeAt(s: string, i: nat): Option<(nat, Unit)> {
    var j := i + 3 + SpaceRun(s, i + 3);
    var d := DigitRun(s, j);
    var k := j + d + SpaceRun(s, j + d);
    if OccursAtNoCase(s, "ssd", i) && d > 0 && (OccursAtNoCase(s, "gb", k) || OccursAtNoCase(s, "tb", k))
    then Some((DigitsValue(s[j..j + d]), if OccursAtNoCase(s, "gb", k) then GB else TB))
    else None
  }

  /** `(\d+)\s*(GB|TB)(?!\s*RAM)`, IGNORECASE, at `i`: value, unit, and where the match ends. */
  function SizeNotRamAt(s: string, i: nat): (r: Option<(nat, Unit, nat)>)
    ensures r.Some? ==> i < r.value.2 <= |s|
  {
    var d := DigitRun(s, i);
    var j := i + d + SpaceRun(s, i + d);
    if d > 0 && (OccursAtNoCase(s, "gb", j) || OccursAtNoCase(s, "tb", j))
       && !OccursAtNoCase(s, "ram", j + 2 + SpaceRun(s, j + 2))
    then Some((DigitsValue(s[i..i + d]), if OccursAtNoCase(s, "gb", j) then GB else TB, j + 2))
    else None
  }

  /** `re.finditer` of SizeNotRamAt from `p`: the non-overlapping matches, left to right. */
  function SizesNotRam(s: string, p: nat): seq<(nat, Unit)>
    decreases |s| - p
  {
    if p >= |s| then []
    else
      match SizeNotRamAt(s, p)
      case Some((v, u, e)) => [(v, u)] + SizesNotRam(s, e)
      case None => SizesNotRam(s, p + 1)
  }

  /** The GB figure that a display text stands for: "{n}TB" is n * 1024, "{n}GB" is n. */
  function DisplayToGb(display: string): nat {
    if |display| >= 2 && display[|display| - 2..] == "TB" then DigitsValue(display[..|display| - 2]) * 1024
    else if |display| >= 2 then DigitsValue(display[..|display| - 2])
    else 0
  }

  /** The storage record's two fields agree: the display reads back as the GB figure. */
  predicate StorageConsistent(st: Storage) {
    && |st.display| >= 3
    && st.display[|st.display| - 2..] in {"TB", "GB"}
    && AllDigits(st.display[..|st.display| - 2])
    && DisplayToGb(st.display) == st.gb
  }

  /** A size in TB is stored as `value * 1024` GB and shown as "{value}TB"; in GB as itself.
      Either way the two fields agree. */
  function MakeStorage(value: nat, unit: Unit): (st: Storage)
    ensures StorageConsistent(st)
  {
    var digits := NatToString(value);
    var st := if unit == TB then Storage(value * 1024, digits + "TB") else Storage(value, digits + "GB");
    assert st.display[..|st.display| - 2] == digits;
    assert st.display[|st.display| - 2..] == (if unit == TB then "TB" else "GB");
    NatToStringRoundTrip(value);
    st
  }

  /** `_extract_storage`: TB first, then "N GB SSD", then "SSD N GB|TB"; failing those,
      the last of two or more GB/TB figures not followed by RAM; otherwise nothing. */
  function ExtractStorage(name: string): (r: Option<Storage>)
    ensures r.Some? ==> StorageConsistent(r.value)
    ensures Found(name, TbAt) ==> r == Some(MakeStorage(Search(name, 0, TbAt).value.1, TB))
    ensures !Found(name, TbAt) && Found(name, GbSsdAt)
            ==> r == Some(MakeStorage(Search(name, 0, GbSsdAt).value.1, GB))
    ensures !Found(name, TbAt) && !Found(name, GbSsdAt) && Found(name, SsdSizeAt)
            ==> var m := Search(name, 0, SsdSizeAt).value.1; r == Some(MakeStorage(m.0, m.1))
    ensures !Found(name, TbAt) && !Found(name, GbSsdAt) && !Found(name, SsdSizeAt)
            ==> (r.Some? <==> |SizesNotRam(name, 0)| >= 2)
    ensures !Found(name, TbAt) && !Found(name, GbSsdAt) && !Found(name, SsdSizeAt) && |SizesNotRam(name, 0)| >= 2
            ==> var all := SizesNotRam(name, 0); r == Some(MakeStorage(all[|all| - 1].0, all[|all| - 1].1))
  {
    match Search(name, 0, TbAt)
    case Some((_, v)) => Some(MakeStorage(v, TB))
    case None => StorageWithoutTb(name)
  }

  /** The storage rules after the TB one: "N GB SSD", then "SSD N GB|TB", then the last
      of two or more sizes. */
  function StorageWithoutTb(name: string): (r: Option<Storage>)
    ensures r.Some? ==> StorageConsistent(r.value)
    ensures Found(name, GbSsdAt) ==> r == Some(MakeStorage(Search(name, 0, GbSsdAt).value.1, GB))
    ensures !Found(name, GbSsdAt) && Found(name, SsdSizeAt)
            ==> var m := Search(name, 0, SsdSizeAt).value.1; r == Some(MakeStorage(m.0, m.1))
    ensures !Found(name, GbSsdAt) && !Found(name, SsdSizeAt) ==> r == LastOfSizes(SizesNotRam(name, 0))
  {
    match Search(name, 0, GbSsdAt)
    case Some((_, v)) => Some(MakeStorage(v, GB))
    case None =>
      match Search(name, 0, SsdSizeAt)
      case Some((_, vu)) => Some(MakeStorage(vu.0, vu.1))
      case None => LastOfSizes(SizesNotRam(name, 0))
  }

  /** The fallback rule: the last size, when there are at least two. */
  function LastOfSizes(all: seq<(nat, Unit)>): (r: Option<Storage>)
    ensures r.Some? <==> |all| >= 2
    ensures r.Some? ==> StorageConsistent(r.value)
  {
    if |all| >= 2 then Some(MakeStorage(all[|all| - 1].0, all[|all| - 1].1)) else None
  }

  // ---------------------------------------------------------------- year

  /** `(20\d{2})` at `i`. */
  function YearAt(s: string, i: nat): Option<nat> {
    if OccursAt(s, "20", i) && i + 3 < |s| && IsDigit(s[i + 2]) && IsDigit(s[i + 3])
    then Some(DigitsValue(s[i..i + 4])) else None
  }

  lemma YearValue(s: string, i: nat)
    requires YearAt(s, i).Some?
    ensures 2000 <= YearAt(s, i).value <= 2099
  {
    var t := s[i..i + 4];
    assert t[..2] == s[i..i + 2] == "20";
    assert t[..3][..2] == t[..2];
    assert "20"[..1] == "2" && "2"[..0] == [];
    assert DigitsValue("20") == 20;
    assert DigitsValue(t) == (20 * 10 + DigitOf(t[2])) * 10 + DigitOf(t[3]);
  }

  /** `_extract_year`: the leftmost "20dd", a year of this century. */
  function ExtractYear(name: string): (r: Option<nat>)
    ensures r.Some? ==> 2000 <= r.value <= 2099
    ensures r.None? <==> forall i :: 0 <= i <= |name| ==> YearAt(name, i).None?
    ensures r.Some? ==> exists i :: && 0 <= i <= |name| && YearAt(name, i) == r
                                    && forall k :: 0 <= k < i ==> YearAt(name, k).None?
  {
    match Search(name, 0, YearAt)
    case Some((i, y)) =>
      YearValue(name, i);
      assert YearAt(name, i) == Some(y);
      Some(y)
    case None => None
  }

  // ---------------------------------------------------------------- clean name and id

  predicate NonZero(n: Option<nat>) {
    n.Some? && n.value != 0
  }

  /** The parts of `_generate_clean_name`, each kept when the source's value is truthy. */
  function CleanNameParts(modelType: string, chip: Option<ChipInfo>, screen: Option<string>,
                          cpu: Option<nat>, gpu: Option<nat>, ram: Option<nat>,
                          storage: Option<Storage>): seq<string>
  {
    (if modelType != [] then [modelType] else [])
    + (if Truthy(screen) then [screen.value] else [])
    + (if chip.Some? then [FullChip(chip.value)] else [])
    + (if NonZero(cpu) then [NatToString(cpu.value) + "C"] else [])
    + (if NonZero(gpu) then [NatToString(gpu.value) + "G"] else [])
    + (if NonZero(ram) then [NatToString(ram.value) + "GB"] else [])
    + (if storage.Some? && storage.value.display != [] then [storage.value.display] else [])
  }

  /** `_generate_clean_name`: space-joined, or None when nothing is known. */
  function GenerateCleanName(modelType: string, chip: Option<ChipInfo>, screen: Option<string>,
                             cpu: Option<nat>, gpu: Option<nat>, ram: Option<nat>,
                             storage: Option<Storage>): (r: Option<string>)
    ensures modelType != [] ==> r.Some? && StartsWith(r.value, modelType)
    ensures r.None? <==> && modelType == [] && !Truthy(screen) && chip.None? && !NonZero(cpu)
                         && !NonZero(gpu) && !NonZero(ram) && (storage.None? || storage.value.display == [])
  {
    var parts := CleanNameParts(modelType, chip, screen, cpu, gpu, ram, storage);
    if parts == [] then None
    else
      JoinStartsWith(parts, " ");
      Some(Join(parts, " "))
  }

  /** With every part known, the name joins them with spaces in the source's order:
      family, screen, chip, CPU cores, GPU cores, RAM, storage. */
  lemma CleanNameAllParts(modelType: string, chip: ChipInfo, screen: string,
                          cpu: nat, gpu: nat, ram: nat, storage: Storage)
    requires modelType != [] && screen != [] && cpu != 0 && gpu != 0 && ram != 0 && storage.display != []
    ensures GenerateCleanName(modelType, Some(chip), Some(screen), Some(cpu), Some(gpu), Some(ram), Some(storage))
         == Some(Join([modelType, screen, FullChip(chip), NatToString(cpu) + "C", NatToString(gpu) + "G",
                       NatToString(ram) + "GB", storage.display], " "))
  {
    assert CleanNameParts(modelType, Some(chip), Some(screen), Some(cpu), Some(gpu), Some(ram), Some(storage))
        == [modelType, screen, FullChip(chip), NatToString(cpu) + "C", NatToString(gpu) + "G",
            NatToString(ram) + "GB", storage.display];
  }

  /** A name without screen or core counts gives family, chip, RAM and storage, in that order. */
  lemma CleanNameWithoutScreenOrCores(modelType: string, chip: ChipInfo, ram: nat, storage: Storage)
    requires modelType != [] && ram != 0 && storage.display != []
    ensures GenerateCleanName(modelType, Some(chip), None, None, None, Some(ram), Some(storage))
         == Some(Join([modelType, FullChip(chip), NatToString(ram) + "GB", storage.display], " "))
  {
    assert CleanNameParts(modelType, Some(chip), None, None, None, Some(ram), Some(storage))
        == [modelType, FullChip(chip), NatToString(ram) + "GB", storage.display];
  }

  /** The storage part of the id: whole terabytes as "{gb // 1024}tb", else "{gb}gb". */
  function StorageIdPart(gb: nat): string {
    if gb >= 1024 then NatToString(gb / 1024) + "tb" else NatToString(gb) + "gb"
  }

  /** Reading an id's storage part back into GB. */
  function StorageIdPartToGb(part: string): nat {
    if |part| >= 2 && part[|part| - 2..] == "tb" then DigitsValue(part[..|part| - 2]) * 1024
    else if |part| >= 2 then DigitsValue(part[..|part| - 2])
    else 0
  }

  /** A size below 1 TB, or a whole number of TB, survives the trip through the id. */
  lemma StorageIdRoundTrip(gb: nat)
    requires gb < 1024 || gb % 1024 == 0
    ensures StorageIdPartToGb(StorageIdPart(gb)) == gb
  {
    var part := StorageIdPart(gb);
    if gb >= 1024 {
      assert part[..|part| - 2] == NatToString(gb / 1024);
      assert part[|part| - 2..] == "tb";
      NatToStringRoundTrip(gb / 1024);
    } else {
      assert part[..|part| - 2] == NatToString(gb);
      assert part[|part| - 2..] == "gb";
      NatToStringRoundTrip(gb);
    }
  }

  /** The parts of `_generate_id`, in order: chip[-variant] in lower case, air/pro,
      screen without quote, RAM, storage. */
  function IdParts(chip: Option<ChipInfo>, modelType: string, screen: Option<string>,
                   ram: Option<nat>, storage: Option<Storage>): seq<string>
  {
    (if chip.Some? && chip.value.chip != [] then
       [Lower(chip.value.chip)
        + (if Truthy(chip.value.variant) then "-" + Lower(chip.value.variant.value) else "")]
     else [])
    + (if modelType != [] && Contains(modelType, "Air") then ["air"]
       else if modelType != [] && Contains(modelType, "Pro") then ["pro"]
       else [])
    + (if Truthy(screen) then [RemoveQuotes(screen.value)] else [])
    + (if NonZero(ram) then [NatToString(ram.value)] else [])
    + (if storage.Some? && storage.value.gb != 0 then [StorageIdPart(storage.value.gb)] else [])
  }

  /** `_generate_id`: the parts joined with '-', or None when there are none. */
  function GenerateId(chip: Option<ChipInfo>, modelType: string, screen: Option<string>,
                      ram: Option<nat>, storage: Option<Storage>): (r: Option<string>)
    ensures r.None? <==>
      && (chip.None? || chip.value.chip == [])
      && !(modelType != [] && (Contains(modelType, "Air") || Contains(modelType, "Pro")))
      && !Truthy(screen) && !NonZero(ram) && (storage.None? || storage.value.gb == 0)
    ensures chip.Some? && chip.value.chip != [] ==> r.Some? && StartsWith(r.value, Lower(chip.value.chip))
  {
    var parts := IdParts(chip, modelType, screen, ram, storage);
    if parts == [] then None
    else
      JoinStartsWith(parts, "-");
      assert chip.Some? && chip.value.chip != [] ==> StartsWith(parts[0], Lower(chip.value.chip));
      Some(Join(parts, "-"))
  }

  /** With every part known, the id joins them with '-' in the source's order: the
      lower-cased chip and variant, the family, the screen without its quote, RAM, storage. */
  lemma IdAllParts(chip: ChipInfo, modelType: string, screen: string, ram: nat, storage: Storage)
    requires chip.chip != [] && chip.variant.Some? && chip.variant.value != []
    requires Contains(modelType, "Air") || Contains(modelType, "Pro")
    requires screen != [] && ram != 0 && storage.gb != 0
    ensures GenerateId(Some(chip), modelType, Some(screen), Some(ram), Some(storage))
         == Some(Join([Lower(chip.chip) + "-" + Lower(chip.variant.value),
                       if Contains(modelType, "Air") then "air" else "pro",
                       RemoveQuotes(screen), NatToString(ram), StorageIdPart(storage.gb)], "-"))
  {
    assert modelType != [];
    assert Lower(chip.chip) + ("-" + Lower(chip.variant.value)) == Lower(chip.chip) + "-" + Lower(chip.variant.value);
    assert IdParts(Some(chip), modelType, Some(screen), Some(ram), Some(storage))
        == [Lower(chip.chip) + "-" + Lower(chip.variant.value),
            if Contains(modelType, "Air") then "air" else "pro",
            RemoveQuotes(screen), NatToString(ram), StorageIdPart(storage.gb)];
  }

  // ---------------------------------------------------------------- parse

  /** `SpecParser.parse`. */
  function Parse(productName: Option<string>): (r: ParseResult)
    ensures r.Empty? <==> productName.None? || productName.value == []
    ensures r.Parsed? ==> r.specs.rawName == productName.value
    ensures r.Parsed? ==> r.specs.modelType in ModelTypes
    ensures r.Parsed? ==> r.specs.cleanName.Some? && StartsWith(r.specs.cleanName.value, r.specs.modelType)
    ensures r.Parsed? && r.specs.storageGb.Some? ==>
      r.specs.storageDisplay.Some? && DisplayToGb(r.specs.storageDisplay.value) == r.specs.storageGb.value
    ensures r.Parsed? && r.specs.chip.Some? ==>
      r.specs.chip.value in ChipNames && r.specs.id.Some? && StartsWith(r.specs.id.value, Lower(r.specs.chip.value))
    ensures r.Parsed? && r.specs.chipVariant.Some? ==> r.specs.chip.Some?
    ensures r.Parsed? && r.specs.year.Some? ==> 2000 <= r.specs.year.value <= 2099
  {
    if productName.None? || productName.value == [] then Empty
    else
      var name := Strip(productName.value);
      var modelType := ExtractModelType(name);
      var chip := ExtractChip(name);
      var screen := ExtractScreenSize(name);
      var cpu := ExtractCpuCores(name);
      var gpu := ExtractGpuCores(name);
      var ram := ExtractRam(name);
      var storage := ExtractStorage(name);
      var year := ExtractYear(name);
      Parsed(Specs(
        id := GenerateId(chip, modelType, screen, ram, storage),
        modelType := modelType,
        chip := if chip.Some? then Some(chip.value.chip) else None,
        chipVariant := if chip.Some? then chip.value.variant else None,
        screenSize := screen,
        cpuCores := cpu,
        gpuCores := gpu,
        ramGb := ram,
        storageGb := if storage.Some? then Some(storage.value.gb) else None,
        storageDisplay := if storage.Some? then Some(storage.value.display) else None,
        year := year,
        cleanName := GenerateCleanName(modelType, chip, screen, cpu, gpu, ram, storage),
        rawName := productName.value))
  }

  /** A storage size written in TB comes back out of the id as the same GB figure. */
  lemma TbStorageRoundTripsThroughId(name: string)
    requires Found(name, TbAt) && Search(name, 0, TbAt).value.1 > 0
    ensures var st := ExtractStorage(name).value;
            st.gb >= 1024 && StorageIdPartToGb(StorageIdPart(st.gb)) == st.gb
  {
    var st := ExtractStorage(name).value;
    assert st.gb % 1024 == 0;
    StorageIdRoundTrip(st.gb);
  }
}
