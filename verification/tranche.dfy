/** Tranche assignment (tools/vflp_run.py:537-772): every configured tranche
    type yields a descriptor value for the protonated tautomer, the value is
    placed among the type's partition boundaries, and the position becomes one
    letter of the tranche string.

    Descriptor values come from engines (cxcalc, obprop, obabel), from
    counting characters of the SMILES string, or from the ligand's input
    file data. Python's `float()` is not modelled: it is a parameter mapping a
    text to a real, or to nothing where `float()` raises `ValueError`.
 */
module Tranche {

  import opened Base
  import opened PyStr
  import opened Engines

  // ------------------------------------------------------------ assign_character

  const Letters: string := "ABCDEFGHIJKLMNOPQRSTUVWXYZabcdefghijklmnopqrstuvwxyz"

  predicate Ascending(b: seq<real>) {
    forall i, j :: 0 <= i < j < |b| ==> b[i] <= b[j]
  }

  /** The scan over the boundaries: the letter index moves to `i + 1` while the
      value exceeds boundary `i`, and the first boundary at or above the value
      stops it. */
  function ScanIndex(b: seq<real>, v: real, i: nat, letter: nat): (r: nat)
    requires i < |b| && v <= b[|b| - 1]
    requires forall j :: 0 <= j < i ==> v > b[j]
    requires letter == i
    ensures r < |b| && v <= b[r]
    ensures forall j :: 0 <= j < r ==> v > b[j]
    decreases |b| - i
  {
    if v > b[i] then ScanIndex(b, v, i + 1, i + 1)
    else letter
  }

  /** The letter index `assign_character` picks for value `v` among the
      boundaries `b` (tools/vflp_run.py:709-730): 0 up to the first boundary,
      `|b| + 1` beyond the last one, and otherwise the first boundary the
      value does not exceed. Index `|b|` is never produced. */
  function AssignIndex(b: seq<real>, v: real): (r: nat)
    requires |b| >= 1
    ensures r == 0 <==> v <= b[0]
    ensures r == |b| + 1 <==> v > b[0] && v > b[|b| - 1]
    ensures v > b[0] && v <= b[|b| - 1] ==>
      1 <= r < |b| && v <= b[r] && forall j :: 0 <= j < r ==> v > b[j]
    ensures r != |b|
  {
    if v <= b[0] then 0
    else if v > b[|b| - 1] then |b| + 1
    else ScanIndex(b, v, 0, 0)
  }

  /** Over ascending boundaries a larger value never gets an earlier letter. */
  lemma AssignIndexMonotone(b: seq<real>, v: real, w: real)
    requires |b| >= 1 && Ascending(b) && v <= w
    ensures AssignIndex(b, v) <= AssignIndex(b, w)
  {
  }

  /** The 52 letters suffice for every value exactly when there are at most 50
      boundaries. */
  lemma AssignIndexFits(b: seq<real>)
    requires |b| >= 1
    ensures (forall v :: AssignIndex(b, v) < |Letters|) <==> |b| <= 50
  {
    var top := if b[0] > b[|b| - 1] then b[0] + 1.0 else b[|b| - 1] + 1.0;
    assert AssignIndex(b, top) == |b| + 1;
  }

  /** The same scan over the textual boundaries, converting each one only when
      the scan reaches it; an unconvertible boundary is a `ValueError`. */
  function ScanText(parts: seq<string>, float: string -> Option<real>, v: real, i: nat, letter: nat): (r: Outcome<nat>)
    requires i <= |parts| && letter < |Letters|
    ensures r.Done? ==> r.value < |Letters|
    ensures !r.Raised?
    decreases |parts| - i
  {
    if i == |parts| then Done(letter)
    else match float(parts[i])
      case None => Crash("ValueError")
      case Some(bi) =>
        if v <= bi then Done(letter)
        else if i + 1 < |Letters| then ScanText(parts, float, v, i + 1, i + 1)
        else Crash("IndexError")
  }

  /** `assign_character` on the texts it is given: the value is converted
      first, then the first boundary, then the last one, then the boundaries
      the scan reaches. A missing boundary list and an index beyond the 52
      letters are `IndexError`s. */
  function AssignCharacter(parts: seq<string>, value: string, float: string -> Option<real>): (r: Outcome<char>)
    ensures r.Done? ==> r.value in Letters
    ensures r.Raised? ==> false
  {
    match float(value)
    case None => Crash("ValueError")
    case Some(v) =>
      if parts == [] then Crash("IndexError")
      else match float(parts[0])
        case None => Crash("ValueError")
        case Some(b0) =>
          if v <= b0 then Done(Letters[0])
          else match float(parts[|parts| - 1])
            case None => Crash("ValueError")
            case Some(bl) =>
              if v > bl then
                if |parts| + 1 < |Letters| then Done(Letters[|parts| + 1]) else Crash("IndexError")
              else match ScanText(parts, float, v, 0, 0)
                case Done(k) => if k < |Letters| then Done(Letters[k]) else assert false; Crash("IndexError")
                case Raised(f) => Raised(f)
                case Crash(why) => Crash(why)
  }

  predicate AllConvert(parts: seq<string>, float: string -> Option<real>) {
    forall i :: 0 <= i < |parts| ==> float(parts[i]).Some?
  }

  function Boundaries(parts: seq<string>, float: string -> Option<real>): (b: seq<real>)
    requires AllConvert(parts, float)
    ensures |b| == |parts|
    ensures forall i :: 0 <= i < |b| ==> float(parts[i]) == Some(b[i])
  {
    seq(|parts|, i requires 0 <= i < |parts| => float(parts[i]).value)
  }

  lemma {:induction false} ScanTextIndex(parts: seq<string>, float: string -> Option<real>, v: real, i: nat)
    requires AllConvert(parts, float)
    requires i < |parts| && i < |Letters|
    requires v <= Boundaries(parts, float)[|parts| - 1]
    requires forall j :: 0 <= j < i ==> v > Boundaries(parts, float)[j]
    ensures var k := ScanIndex(Boundaries(parts, float), v, i, i);
      ScanText(parts, float, v, i, i) == if k < |Letters| then Done(k) else Crash("IndexError")
    decreases |parts| - i
  {
    var b := Boundaries(parts, float);
    if v > b[i] && i + 1 < |Letters| {
      ScanTextIndex(parts, float, v, i + 1);
    }
  }

  /** When the value and every boundary convert, `assign_character` yields the
      letter at `AssignIndex`, and fails only when that index is beyond the
      alphabet. */
  lemma AssignCharacterSpec(parts: seq<string>, value: string, float: string -> Option<real>)
    requires |parts| >= 1 && AllConvert(parts, float) && float(value).Some?
    ensures var k := AssignIndex(Boundaries(parts, float), float(value).value);
      AssignCharacter(parts, value, float) == if k < |Letters| then Done(Letters[k]) else Crash("IndexError")
  {
    var b := Boundaries(parts, float);
    var v := float(value).value;
    assert float(parts[0]) == Some(b[0]);
    assert float(parts[|parts| - 1]) == Some(b[|b| - 1]);
    if v > b[0] && v <= b[|b| - 1] {
      ScanTextIndex(parts, float, v, 0);
      assert AssignIndex(b, v) == ScanIndex(b, v, 0, 0);
    }
  }

  // ------------------------------------------------------------ SMILES counters

  /** Number of characters of `s` in `cls` (a `re.findall` of a character class). */
  function ClassCount(s: string, cls: set<char>): nat
    decreases |s|
  {
    if s == [] then 0 else (if s[0] in cls then 1 else 0) + ClassCount(s[1..], cls)
  }

  const Electronegative: set<char> := {'N', 'n', 'O', 'o', 'S', 's', 'P', 'p', 'F', 'f', 'X', 'x', 'B', 'b', 'I', 'i'}

  function HalogenCount(smi: string): nat {
    Count(smi, "F") + Count(smi, "Cl") + Count(smi, "Br") + Count(smi, "I")
  }

  function ElectronegativeAtomCount(smi: string): nat {
    var s1 := Replace(smi, "Na", "");
    var s2 := Replace(s1, "Cl", "X");
    var s3 := Replace(s2, "Si", "");
    ClassCount(s3, Electronegative)
  }

  function NOCount(smi: string): nat {
    var s := Replace(smi, "Na", "");
    Count(s, "N") + Count(s, "O") + Count(s, "n") + Count(s, "o")
  }

  function SulfurCount(smi: string): nat {
    Count(Replace(smi, "Si", ""), "S")
  }

  function PositiveCharge(smi: string): nat {
    Count(Replace(smi, "+2", "++"), "+")
  }

  function NegativeCharge(smi: string): nat {
    Count(Replace(smi, "-2", "--"), "-")
  }

  function FormalCharge(smi: string): int {
    PositiveCharge(smi) - NegativeCharge(smi)
  }

  /** A `+2` charge counts twice: once for its `+`, once more for the `2`. */
  lemma PositiveChargeSpec(smi: string)
    ensures PositiveCharge(smi) == multiset(smi)['+'] + Count(smi, "+2")
  {
    ReplaceCharCount(smi, "+2", "++", '+');
    CountChar(Replace(smi, "+2", "++"), '+');
    assert multiset("+2")['+'] == 1;
    assert multiset("++")['+'] == 2;
    assert "+" == ['+'];
  }

  lemma NegativeChargeSpec(smi: string)
    ensures NegativeCharge(smi) == multiset(smi)['-'] + Count(smi, "-2")
  {
    ReplaceCharCount(smi, "-2", "--", '-');
    CountChar(Replace(smi, "-2", "--"), '-');
    assert multiset("-2")['-'] == 1;
    assert multiset("--")['-'] == 2;
    assert "-" == ['-'];
  }

  lemma FormalChargeSpec(smi: string)
    ensures FormalCharge(smi)
      == multiset(smi)['+'] - multiset(smi)['-'] + Count(smi, "+2") - Count(smi, "-2")
  {
    PositiveChargeSpec(smi);
    NegativeChargeSpec(smi);
  }

  /** Deleting every occurrence of a pattern that holds `c` once removes one
      `c` per occurrence. */
  lemma DeleteCharCount(s: string, pat: string, c: char)
    requires |pat| > 0 && multiset(pat)[c] == 1
    ensures Count(Replace(s, pat, ""), [c]) + Count(s, pat) == multiset(s)[c]
  {
    var n := Count(s, pat);
    assert multiset("")[c] == 0;
    assert n * multiset("")[c] == 0;
    assert n * multiset(pat)[c] == n;
    ReplaceCharCount(s, pat, "", c);
    CountChar(Replace(s, pat, ""), c);
  }

  /** Deleting a pattern that does not hold `c` keeps every `c`. */
  lemma DeleteOtherCount(s: string, pat: string, c: char)
    requires |pat| > 0 && multiset(pat)[c] == 0
    ensures Count(Replace(s, pat, ""), [c]) == multiset(s)[c]
  {
    var n := Count(s, pat);
    assert multiset("")[c] == 0;
    assert n * multiset("")[c] == 0;
    assert n * multiset(pat)[c] == 0;
    ReplaceCharCount(s, pat, "", c);
    CountChar(Replace(s, pat, ""), c);
  }

  /** Every `S` counts except the one of each silicon `Si`. */
  lemma SulfurCountSpec(smi: string)
    ensures SulfurCount(smi) + Count(smi, "Si") == multiset(smi)['S']
  {
    assert "Si" == ['S'] + ['i'];
    DeleteCharCount(smi, "Si", 'S');
    assert "S" == ['S'];
  }

  /** Every N, O, n, o counts except the `N` of each sodium `Na`. */
  lemma NOCountSpec(smi: string)
    ensures NOCount(smi) + Count(smi, "Na")
      == multiset(smi)['N'] + multiset(smi)['O'] + multiset(smi)['n'] + multiset(smi)['o']
  {
    assert "Na" == ['N'] + ['a'];
    DeleteCharCount(smi, "Na", 'N');
    DeleteOtherCount(smi, "Na", 'O');
    DeleteOtherCount(smi, "Na", 'n');
    DeleteOtherCount(smi, "Na", 'o');
    assert "N" == ['N'] && "O" == ['O'] && "n" == ['n'] && "o" == ['o'];
  }

  lemma HalogenCountSpec(smi: string)
    ensures HalogenCount(smi) == multiset(smi)['F'] + multiset(smi)['I'] + Count(smi, "Cl") + Count(smi, "Br")
  {
    CountChar(smi, 'F');
    CountChar(smi, 'I');
    assert "F" == ['F'] && "I" == ['I'];
  }

  lemma {:induction false} ClassCountAppend(a: string, b: string, cls: set<char>)
    ensures ClassCount(a + b, cls) == ClassCount(a, cls) + ClassCount(b, cls)
    decreases |a|
  {
    if a != [] {
      assert (a + b)[1..] == a[1..] + b;
      ClassCountAppend(a[1..], b, cls);
    } else {
      assert a + b == b;
    }
  }

  /** How a replacement shifts the number of class characters. */
  lemma {:induction false} ReplaceClassCount(s: string, pat: string, rep: string, cls: set<char>)
    requires |pat| > 0
    ensures ClassCount(Replace(s, pat, rep), cls) + Count(s, pat) * ClassCount(pat, cls)
            == ClassCount(s, cls) + Count(s, pat) * ClassCount(rep, cls)
    decreases |s|
  {
    if |s| >= |pat| {
      if s[..|pat|] == pat {
        var t := s[|pat|..];
        ReplaceClassCount(t, pat, rep, cls);
        assert s == pat + t;
        ClassCountAppend(pat, t, cls);
        ClassCountAppend(rep, Replace(t, pat, rep), cls);
        Distribute(Count(t, pat), ClassCount(pat, cls));
        Distribute(Count(t, pat), ClassCount(rep, cls));
      } else {
        ReplaceClassCount(s[1..], pat, rep, cls);
        assert Replace(s, pat, rep) == [s[0]] + Replace(s[1..], pat, rep);
        ClassCountAppend([s[0]], Replace(s[1..], pat, rep), cls);
      }
    }
  }

  lemma ClassCountNa(s: string)
    ensures ClassCount(Replace(s, "Na", ""), Electronegative) + Count(s, "Na") == ClassCount(s, Electronegative)
  {
    assert ClassCount("Na", Electronegative) == 1 by {
      assert "Na"[1..] == "a";
      assert "a"[1..] == "";
    }
    ReplaceClassCount(s, "Na", "", Electronegative);
  }

  lemma ClassCountSi(s: string)
    ensures ClassCount(Replace(s, "Si", ""), Electronegative) + 2 * Count(s, "Si") == ClassCount(s, Electronegative)
  {
    assert ClassCount("Si", Electronegative) == 2 by {
      assert "Si"[1..] == "i";
      assert "i"[1..] == "";
    }
    ReplaceClassCount(s, "Si", "", Electronegative);
  }

  lemma ClassCountCl(s: string)
    ensures ClassCount(Replace(s, "Cl", "X"), Electronegative) == ClassCount(s, Electronegative) + Count(s, "Cl")
  {
    assert ClassCount("Cl", Electronegative) == 0 by {
      assert "Cl"[1..] == "l";
      assert "l"[1..] == "";
    }
    assert ClassCount("X", Electronegative) == 1 by {
      assert "X"[1..] == "";
    }
    ReplaceClassCount(s, "Cl", "X", Electronegative);
  }

  /** The electronegative atoms: all class characters, less the `N` of each
      sodium, plus an `X` for each chlorine, less both letters of each silicon
      (`i` is in the class as well as `S`), each replacement counted on the
      text the previous one left. */
  lemma ElectronegativeAtomCountSpec(smi: string)
    ensures var s1 := Replace(smi, "Na", "");
      var s2 := Replace(s1, "Cl", "X");
      ElectronegativeAtomCount(smi) + Count(smi, "Na") + 2 * Count(s2, "Si")
        == ClassCount(smi, Electronegative) + Count(s1, "Cl")
  {
    var s1 := Replace(smi, "Na", "");
    var s2 := Replace(s1, "Cl", "X");
    ClassCountNa(smi);
    ClassCountCl(s1);
    ClassCountSi(s2);
  }

  // ------------------------------------------------------------ tranche_assignment

  /** `re.search(r'^([0-9+\-eE\.]+)$', value)`: Python's `$` also matches just
      before a final newline. */
  predicate NumericChars(s: string) {
    |s| > 0 && forall i :: 0 <= i < |s| ==> ('0' <= s[i] <= '9' || s[i] in "+-eE.")
  }

  predicate NumericText(value: string) {
    NumericChars(value) || (|value| > 1 && value[|value| - 1] == '\n' && NumericChars(value[..|value| - 1]))
  }

  /** The cxcalc argument of each ChemaxOn-computed type. */
  function CxcalcArgument(t: string): Option<string> {
    if t == "mw_jchem" then Some("mass")
    else if t == "logp_jchem" then Some("logp")
    else if t == "hba_jchem" then Some("acceptorcount")
    else if t == "hbd_jchem" then Some("donorcount")
    else if t == "rotb_jchem" then Some("rotatablebondcount")
    else if t == "tpsa_jchem" then Some("polarsurfacearea")
    else if t == "logd" then Some("logd")
    else if t == "logs" then Some("logs")
    else if t == "atomcount_jchem" then Some("atomcount")
    else if t == "bondcount_jchem" then Some("bondcount")
    else if t == "ringcount" then Some("ringcount")
    else if t == "aromaticringcount" then Some("aromaticringcount")
    else if t == "mr_jchem" then Some("refractivity")
    else if t == "fsp3" then Some("fsp3")
    else if t == "chiralcentercount" then Some("chiralcentercount")
    else None
  }

  /** The obprop attribute of each obabel-computed type that makes
      `tranche_assignment` run obprop. */
  function ObpropAttribute(t: string): Option<string> {
    if t == "mw_obabel" then Some("mol_weight")
    else if t == "logp_obabel" then Some("logP")
    else if t == "tpsa_obabel" then Some("PSA")
    else if t == "atomcount_obabel" then Some("num_atoms")
    else if t == "bondcount_obabel" then Some("num_bonds")
    else if t == "mr_obabel" then Some("MR")
    else None
  }

  /** The `file_data` attribute each `*_file` type reads; the negative charge
      count reads the misspelled "negativechargeount". */
  function FileAttribute(t: string): Option<string> {
    if t == "mw_file" then Some("mw")
    else if t == "logp_file" then Some("logp")
    else if t == "hba_file" then Some("hba")
    else if t == "hbd_file" then Some("hbd")
    else if t == "rotb_file" then Some("rotb")
    else if t == "tpsa_file" then Some("tpsa")
    else if t == "logd_file" then Some("logd")
    else if t == "logs_file" then Some("logs")
    else if t == "heavyatomcount_file" then Some("heavyatomcount")
    else if t == "ringcount_file" then Some("ringcount")
    else if t == "aromaticringcount_file" then Some("aromaticringcount")
    else if t == "mr_file" then Some("mr")
    else if t == "formalcharge_file" then Some("formalcharge")
    else if t == "positivechargecount_file" then Some("positivecharge")
    else if t == "negativechargecount_file" then Some("negativechargeount")
    else if t == "fsp3_file" then Some("fsp3")
    else if t == "chiralcentercount_file" then Some("chiralcentercount")
    else if t == "halogencount_file" then Some("halogencount")
    else if t == "sulfurcount_file" then Some("sulfurcount")
    else if t == "NOcount_file" then Some("NOcount")
    else if t == "electronegativeatomcount_file" then Some("electronegativeatomcount")
    else None
  }

  /** The types counted on the SMILES string itself. */
  predicate CounterType(t: string) {
    t in {"formalcharge", "positivechargecount", "negativechargecount", "halogencount",
          "sulfurcount", "NOcount", "electronegativeatomcount"}
  }

  /** The count each SMILES-counted type computes. */
  function CounterValue(t: string, smi: string): int
    requires CounterType(t)
  {
    if t == "formalcharge" then FormalCharge(smi)
    else if t == "positivechargecount" then PositiveCharge(smi)
    else if t == "negativechargecount" then NegativeCharge(smi)
    else if t == "halogencount" then HalogenCount(smi)
    else if t == "sulfurcount" then SulfurCount(smi)
    else if t == "NOcount" then NOCount(smi)
    else ElectronegativeAtomCount(smi)
  }

  /** The engine runs tranche assignment may consult, and `float()`. The cxcalc
      and obabel runs are indexed by their argument (the protonated SMILES is
      the same throughout one assignment). */
  datatype Probes = Probes(
    cxcalc: string -> Run,
    obprop: Run,
    obabelAppend: string -> Run,
    float: string -> Option<real>)

  /** What one assignment reads besides the engines. */
  datatype TrancheInput = TrancheInput(
    types: seq<string>,
    partitions: map<string, seq<string>>,
    fileData: map<string, string>,
    smi: string)

  /** The tranche string and the "type: value" remarks, one per type. */
  datatype Assigned = Assigned(tranche: string, remarks: seq<string>)

  /** `cxcalc_attribute` (tools/vflp_run.py:1156-1173). */
  function CxcalcAttribute(run: Run): Result<string, Fault> {
    match ChemaxonGeneral(run, true)
    case Err(f) => Err(f)
    case Ok(o) => TabValue(o, AttributeUnparsed)
  }

  /** `run_obabel_hbX` (tools/vflp_run.py:1377-1394). */
  function ObabelAppend(run: Run): Result<string, Fault> {
    match ObabelGeneral(run)
    case Err(f) => Err(f)
    case Ok(o) => HbxValue(o)
  }

  function Lift(r: Result<string, Fault>): Outcome<string> {
    match r
    case Ok(v) => Done(v)
    case Err(f) => Raised(f)
  }

  /** The attributes dictionary lookup: a missing key is a `KeyError`. */
  function AttributeAt(attrs: map<string, string>, key: string): Outcome<string> {
    if key in attrs then Done(attrs[key]) else Crash("KeyError")
  }

  /** `str(tranche_value)` for one type (tools/vflp_run.py:583-700). `attrs` is
      the obprop dictionary, empty when obprop was not run. */
  function TypeValue(t: string, p: Probes, attrs: map<string, string>, input: TrancheInput): Outcome<string>
  {
    if CxcalcArgument(t).Some? then Lift(CxcalcAttribute(p.cxcalc(CxcalcArgument(t).value)))
    else if ObpropAttribute(t).Some? then AttributeAt(attrs, ObpropAttribute(t).value)
    else if t == "rotb_obabel" then
      match AttributeAt(attrs, "num_rotors")
      case Done(v) => if v == "INVALID" then Lift(CxcalcAttribute(p.cxcalc("rotatablebondcount"))) else Done(v)
      case Raised(f) => Raised(f)
      case Crash(why) => Crash(why)
    else if t == "hba_obabel" then Lift(ObabelAppend(p.obabelAppend("HBA1")))
    else if t == "hbd_obabel" then Lift(ObabelAppend(p.obabelAppend("HBD")))
    else if CounterType(t) then Done(IntToString(CounterValue(t, input.smi)))
    else if FileAttribute(t).Some? then
      var a := FileAttribute(t).value;
      if a in input.fileData then Done(input.fileData[a]) else Raised(MissingFileData(a))
    else Raised(UnsupportedTrancheType(t))
  }

  predicate Supported(t: string) {
    CxcalcArgument(t).Some? || ObpropAttribute(t).Some? || t in {"rotb_obabel", "hba_obabel", "hbd_obabel"}
    || CounterType(t) || FileAttribute(t).Some?
  }

  /** The engines never report an unsupported tranche type. */
  lemma CxcalcNotUnsupported(run: Run)
    ensures CxcalcAttribute(run).Err? ==> !CxcalcAttribute(run).error.UnsupportedTrancheType?
  {
  }

  lemma ObabelAppendNotUnsupported(run: Run)
    ensures ObabelAppend(run).Err? ==> !ObabelAppend(run).error.UnsupportedTrancheType?
  {
  }

  /** Exactly the types outside the supported list raise "not supported". */
  lemma TypeValueUnsupported(t: string, p: Probes, attrs: map<string, string>, input: TrancheInput)
    ensures TypeValue(t, p, attrs, input) == Raised(UnsupportedTrancheType(t)) <==> !Supported(t)
  {
    if CxcalcArgument(t).Some? {
      CxcalcNotUnsupported(p.cxcalc(CxcalcArgument(t).value));
    } else if ObpropAttribute(t).Some? {
    } else if t == "rotb_obabel" {
      CxcalcNotUnsupported(p.cxcalc("rotatablebondcount"));
    } else if t == "hba_obabel" {
      ObabelAppendNotUnsupported(p.obabelAppend("HBA1"));
    } else if t == "hbd_obabel" {
      ObabelAppendNotUnsupported(p.obabelAppend("HBD"));
    }
  }

  /** One type's letter and remark: the value must look numeric, the type must
      have partitions (a `KeyError` otherwise), and the letter is placed
      among them. */
  function TypeLetter(t: string, p: Probes, attrs: map<string, string>, input: TrancheInput): (r: Outcome<(char, string)>)
    ensures r.Done? ==> exists v :: NumericText(v) && TypeValue(t, p, attrs, input) == Done(v) && r.value.1 == t + ": " + v
    ensures r.Done? ==> r.value.0 in Letters
  {
    match TypeValue(t, p, attrs, input)
    case Raised(f) => Raised(f)
    case Crash(why) => Crash(why)
    case Done(v) =>
      if !NumericText(v) then Raised(InvalidTrancheValue(t, v))
      else if t !in input.partitions then Crash("KeyError")
      else match AssignCharacter(input.partitions[t], v, p.float)
        case Done(c) => Done((c, t + ": " + v))
        case Raised(f) => Raised(f)
        case Crash(why) => Crash(why)
  }

  /** The types processed in order; the first failure ends the assignment. */
  function AssignAll(types: seq<string>, p: Probes, attrs: map<string, string>, input: TrancheInput): Outcome<Assigned>
    decreases |types|
  {
    if types == [] then Done(Assigned("", []))
    else match TypeLetter(types[0], p, attrs, input)
      case Raised(f) => Raised(f)
      case Crash(why) => Crash(why)
      case Done(lr) =>
        match AssignAll(types[1..], p, attrs, input)
        case Done(rest) => Done(Assigned([lr.0] + rest.tranche, [lr.1] + rest.remarks))
        case Raised(f) => Raised(f)
        case Crash(why) => Crash(why)
  }

  /** obprop runs when some type needs one of its attributes (`rotb_obabel`
      alone does not count). */
  predicate NeedsObprop(types: seq<string>) {
    exists i :: 0 <= i < |types| && ObpropAttribute(types[i]).Some?
  }

  /** `tranche_assignment` (tools/vflp_run.py:537-705). */
  function TrancheAssignment(p: Probes, input: TrancheInput): Outcome<Assigned> {
    if NeedsObprop(input.types) then
      match ObpropAttributes(p.obprop)
      case Err(f) => Raised(f)
      case Ok(attrs) => AssignAll(input.types, p, attrs, input)
    else AssignAll(input.types, p, map[], input)
  }

  /** On success the tranche string has exactly one letter per configured type,
      in order, and so do the remarks; each letter and remark is what that type
      alone yields. */
  lemma {:induction false} AssignAllSpec(types: seq<string>, p: Probes, attrs: map<string, string>, input: TrancheInput)
    requires AssignAll(types, p, attrs, input).Done?
    ensures var a := AssignAll(types, p, attrs, input).value;
      |a.tranche| == |types| && |a.remarks| == |types|
      && forall i :: 0 <= i < |types| ==> TypeLetter(types[i], p, attrs, input) == Done((a.tranche[i], a.remarks[i]))
    decreases |types|
  {
    if types != [] {
      AssignAllSpec(types[1..], p, attrs, input);
      var a := AssignAll(types, p, attrs, input).value;
      var rest := AssignAll(types[1..], p, attrs, input).value;
      forall i | 0 <= i < |types| ensures TypeLetter(types[i], p, attrs, input) == Done((a.tranche[i], a.remarks[i])) {
        if i > 0 {
          assert types[i] == types[1..][i - 1];
          assert a.tranche[i] == rest.tranche[i - 1];
          assert a.remarks[i] == rest.remarks[i - 1];
        }
      }
    }
  }

  /** The assignment succeeds exactly when every type does. */
  lemma {:induction false} AssignAllDone(types: seq<string>, p: Probes, attrs: map<string, string>, input: TrancheInput)
    ensures AssignAll(types, p, attrs, input).Done?
      <==> forall i :: 0 <= i < |types| ==> TypeLetter(types[i], p, attrs, input).Done?
    decreases |types|
  {
    if types != [] {
      AssignAllDone(types[1..], p, attrs, input);
      if forall i :: 0 <= i < |types| ==> TypeLetter(types[i], p, attrs, input).Done? {
        forall i | 0 <= i < |types[1..]| ensures TypeLetter(types[1..][i], p, attrs, input).Done? {
          assert types[1..][i] == types[i + 1];
        }
      } else if TypeLetter(types[0], p, attrs, input).Done? {
        var i :| 0 <= i < |types| && !TypeLetter(types[i], p, attrs, input).Done?;
        assert types[1..][i - 1] == types[i];
      }
    }
  }

  /** An unsupported type, a missing file attribute or a non-numeric value
      raises, so no tranche string is produced. */
  lemma AssignAllRaises(types: seq<string>, p: Probes, attrs: map<string, string>, input: TrancheInput, k: nat)
    requires k < |types|
    requires !TypeLetter(types[k], p, attrs, input).Done?
    ensures !AssignAll(types, p, attrs, input).Done?
  {
    AssignAllDone(types, p, attrs, input);
  }

  /** A `rotb_obabel` type without any type that triggers obprop reads the
      empty attribute dictionary and ends in a `KeyError`. */
  lemma RotbObabelAlone(p: Probes, input: TrancheInput)
    requires input.types == ["rotb_obabel"]
    ensures TrancheAssignment(p, input) == Crash("KeyError")
  {
    assert !NeedsObprop(input.types) by {
      assert ObpropAttribute("rotb_obabel").None?;
    }
    assert CxcalcArgument("rotb_obabel").None?;
  }
}
