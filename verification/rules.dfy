/** The extraction rules of `SPMMAT` (shared by both variants), `SPMMAT1`
    (files with a session block) and `SPMMAT2` (files without one), and the
    image linker `get_image`. */
module Rules {
  import opened Values
  import opened Flatten
  import opened Text

  /** Which subclass `spm_factory` instantiated. */
  datatype Variant = Spm1 | Spm2

  /** An `SPMMAT` object: its subclass, the directory of the SPM.mat file
      and the decoded `SPM` record. */
  datatype Spm = Spm(variant: Variant, path: string, mat: Value)

  /** `nib.load('%s/%s' % (path, value))`: the image loader, given the
      directory and the file-name value; `None` stands for any exception. */
  type Loader = (string, Item) -> Option<Handle>

  // ---------------------------------------------------------------------
  // Rules that flatten one field

  /** `self.flatten(<value at path>)`. */
  function ReadFlat(mat: Value, path: seq<Step>): (r: Result<Item>)
    ensures r.Ok? <==> Walk(mat, path).Ok?
    ensures r.Ok? ==> r.value == Flat(Walk(mat, path).value)
  {
    match Walk(mat, path)
    case Err(e) => Err(e)
    case Ok(v) => Ok(Flat(v))
  }

  /** A field holding one non-array value reads as that value however many
      single-element arrays wrap it. */
  lemma ReadFlatWrapped(mat: Value, path: seq<Step>, v: Value, depth: nat)
    requires Walk(mat, path) == Ok(Wrap(v, depth))
    requires !v.Arr?
    ensures ReadFlat(mat, path) == Ok(Val(v))
  {
    FlatWrappedLeaf(v, depth);
  }

  const NscanPath: seq<Step> := [Key("nscan")]
  const SpmidPath: seq<Step> := [Key("SPMid")]
  const SwdPath: seq<Step> := [Key("swd")]
  const DescripPath: seq<Step> := [Key("xY"), At(0), At(0), Key("VY"), At(0), Key("descrip")]
  const AutocorrPath: seq<Step> := [Key("xVi"), At(0), Key("form")]
  const DesPath: seq<Step> := [Key("xsDes"), At(0), Key("Design")]
  const RegressorsPath: seq<Step> := [Key("Sess"), At(0), At(0), Key("C"), At(0), At(0), Key("name")]

  /** `_read_nscan`: the first leaf of the `nscan` field (a list result is
      cut to its first element; a single leaf is returned as it is).  An
      empty field raises `IndexError`. */
  function ReadNscan(mat: Value): (r: Result<Item>)
    ensures r.Ok? <==> Walk(mat, NscanPath).Ok? && |Leaves(Walk(mat, NscanPath).value)| > 0
    ensures r.Ok? ==> r.value == Val(Leaves(Walk(mat, NscanPath).value)[0])
  {
    match ReadFlat(mat, NscanPath)
    case Err(e) => Err(e)
    case Ok(n) =>
      if n.List? then
        if |n.vs| == 0 then Err(IndexOutOfRange(0)) else Ok(Val(n.vs[0]))
      else Ok(n)
  }

  /** A multi-session scan count `[[n1, n2, ...]]` reads as `n1`. */
  lemma NscanFirstSession(mat: Value, counts: seq<int>)
    requires mat.Rec? && "nscan" in mat.fields
    requires |counts| > 0
    requires mat.fields["nscan"] == Arr([Arr(seq(|counts|, i requires 0 <= i < |counts| => Num(counts[i])))])
    ensures ReadNscan(mat) == Ok(Val(Num(counts[0])))
  {
    var row := seq(|counts|, i requires 0 <= i < |counts| => Num(counts[i]));
    assert Walk(mat, NscanPath) == Ok(Arr([Arr(row)]));
    FlatOfLeaves(row);
    LeavesWrap(Arr(row), 1);
    assert Wrap(Arr(row), 1) == Arr([Arr(row)]);
  }

  // ---------------------------------------------------------------------
  // SPMMAT1._read_motreg

  const Patterns: seq<string> := ["pitch", "roll", "yaw"]

  /** Whether a regressor name mentions a head-motion parameter. */
  predicate IsMotionName(s: string)
  {
    ContainsCI(s, "pitch") || ContainsCI(s, "roll") || ContainsCI(s, "yaw")
  }

  /** `for regressor in regressors`: a list yields its elements; a single
      string yields its characters, each a one-character string; any other
      single value is not iterable. */
  function Iterate(x: Item): (r: Result<seq<Value>>)
    ensures x.List? ==> r == Ok(x.vs)
    ensures x.Val? && x.v.Str? ==> r.Ok? && |r.value| == |x.v.s|
    ensures x.Val? && x.v.Str? ==> forall i :: 0 <= i < |x.v.s| ==> r.value[i] == Str([x.v.s[i]])
    ensures !x.List? && !(x.Val? && x.v.Str?) ==> r == Err(NotIterable)
  {
    match x
    case List(vs) => Ok(vs)
    case Val(Str(s)) => Ok(seq(|s|, i requires 0 <= i < |s| => Str([s[i]])))
    case _ => Err(NotIterable)
  }

  /** The outcome of the nested search over `regs`: true at the first
      regressor that mentions a motion parameter, an error at the first
      non-string regressor reached before that, false otherwise. */
  function MotregOf(regs: seq<Value>): (r: Result<bool>)
    ensures r.Err? ==> r.error == NotAString
    ensures r == Ok(false) ==> forall i :: 0 <= i < |regs| ==> regs[i].Str? && !IsMotionName(regs[i].s)
    decreases |regs|
  {
    if regs == [] then Ok(false)
    else if !regs[0].Str? then Err(NotAString)
    else if IsMotionName(regs[0].s) then Ok(true)
    else MotregOf(regs[1..])
  }

  /** `_read_motreg` as a function of the record. */
  function MotregSpec(mat: Value): Result<bool>
  {
    match ReadFlat(mat, RegressorsPath)
    case Err(e) => Err(e)
    case Ok(x) =>
      match Iterate(x)
      case Err(e) => Err(e)
      case Ok(regs) => MotregOf(regs)
  }

  /** `_read_motreg`: the loops over regressors and patterns, returning at
      the first match. */
  method ReadMotreg(mat: Value) returns (r: Result<bool>)
    ensures r == MotregSpec(mat)
  {
    var names := ReadFlat(mat, RegressorsPath);
    if names.Err? {
      return Err(names.error);
    }
    var regressors := Iterate(names.value);
    if regressors.Err? {
      return Err(regressors.error);
    }
    var regs := regressors.value;
    PatternsNonEmpty();
    for i := 0 to |regs|
      invariant MotregOf(regs) == MotregOf(regs[i..])
    {
      MotregOfAt(regs, i);
      // re.search raises on a non-string subject at the first pattern
      if !regs[i].Str? {
        return Err(NotAString);
      }
      var regressor := regs[i].s;
      for j := 0 to |Patterns|
        invariant forall k :: 0 <= k < j ==> !ContainsCI(regressor, Patterns[k])
      {
        if ContainsCI(regressor, Patterns[j]) {
          PatternsMotion(regressor);
          return Ok(true);
        }
      }
      PatternsMotion(regressor);
    }
    return Ok(false);
  }

  /** Solver helper: none of the three patterns is empty. */
  lemma PatternsNonEmpty()
    ensures forall k :: 0 <= k < |Patterns| ==> |Patterns[k]| > 0
  {
  }

  /** A name mentions a motion parameter iff it contains one of the
      patterns. */
  lemma PatternsMotion(s: string)
    ensures IsMotionName(s) <==> exists k :: 0 <= k < |Patterns| && ContainsCI(s, Patterns[k])
  {
    assert Patterns[0] == "pitch" && Patterns[1] == "roll" && Patterns[2] == "yaw";
  }

  /** The search from regressor `i` on looks at regressor `i` first. */
  lemma MotregOfAt(regs: seq<Value>, i: nat)
    requires i < |regs|
    ensures !regs[i].Str? ==> MotregOf(regs[i..]) == Err(NotAString)
    ensures regs[i].Str? && IsMotionName(regs[i].s) ==> MotregOf(regs[i..]) == Ok(true)
    ensures regs[i].Str? && !IsMotionName(regs[i].s) ==> MotregOf(regs[i..]) == MotregOf(regs[i + 1..])
  {
    assert regs[i..][0] == regs[i];
    assert regs[i..][1..] == regs[i + 1..];
  }

  /** On string regressors the search answers whether any of them mentions
      pitch, roll or yaw, in any letter case. */
  lemma {:induction false} MotregOfStrings(regs: seq<Value>)
    requires forall i :: 0 <= i < |regs| ==> regs[i].Str?
    ensures MotregOf(regs) == Ok(exists i :: 0 <= i < |regs| && IsMotionName(regs[i].s))
    decreases |regs|
  {
    if regs != [] {
      MotregOfStrings(regs[1..]);
      if exists i :: 0 <= i < |regs[1..]| && IsMotionName(regs[1..][i].s) {
        var i :| 0 <= i < |regs[1..]| && IsMotionName(regs[1..][i].s);
        assert IsMotionName(regs[i + 1].s);
      }
      if exists i :: 0 <= i < |regs| && IsMotionName(regs[i].s) {
        var i :| 0 <= i < |regs| && IsMotionName(regs[i].s);
        if i > 0 {
          assert regs[1..][i - 1] == regs[i];
        }
      }
    }
  }

  /** The search stops at the first match: what follows a matching
      regressor is never looked at, even a non-string. */
  lemma MotregOfStopsAtMatch(pre: seq<Value>, s: string, post: seq<Value>)
    requires forall i :: 0 <= i < |pre| ==> pre[i].Str? && !IsMotionName(pre[i].s)
    requires IsMotionName(s)
    ensures MotregOf(pre + [Str(s)] + post) == Ok(true)
    decreases |pre|
  {
    if pre != [] {
      assert (pre + [Str(s)] + post)[1..] == pre[1..] + [Str(s)] + post;
      MotregOfStopsAtMatch(pre[1..], s, post);
    } else {
      assert (pre + [Str(s)] + post)[0] == Str(s);
    }
  }

  /** A session with a single regressor name: `flatten` returns the bare
      string, the loop walks its characters, and no one-character string
      contains a pattern, so the result is false whatever the name. */
  lemma MotregSingleName(mat: Value, name: string)
    requires ReadFlat(mat, RegressorsPath) == Ok(Val(Str(name)))
    ensures MotregSpec(mat) == Ok(false)
  {
    var regs := Iterate(Val(Str(name))).value;
    forall i | 0 <= i < |regs| ensures regs[i].Str? && !IsMotionName(regs[i].s) {
      ContainsCIShort(regs[i].s, "pitch");
      ContainsCIShort(regs[i].s, "roll");
      ContainsCIShort(regs[i].s, "yaw");
    }
    MotregOfStrings(regs);
  }

  /** A name in which none of `pi`, `ro`, `ya` appears (ignoring case)
      mentions no motion parameter. */
  lemma NotMotionName(s: string)
    requires forall i :: 0 <= i < |s| - 1 ==>
      var pair := [LowerChar(s[i]), LowerChar(s[i + 1])];
      pair != "pi" && pair != "ro" && pair != "ya"
    ensures !IsMotionName(s)
  {
    forall i | 0 <= i < |s| - 1 ensures !(LowerChar(s[i]) == 'p' && LowerChar(s[i + 1]) == 'i') {
      var pair := [LowerChar(s[i]), LowerChar(s[i + 1])];
      assert pair != "pi";
    }
    forall i | 0 <= i < |s| - 1 ensures !(LowerChar(s[i]) == 'r' && LowerChar(s[i + 1]) == 'o') {
      var pair := [LowerChar(s[i]), LowerChar(s[i + 1])];
      assert pair != "ro";
    }
    forall i | 0 <= i < |s| - 1 ensures !(LowerChar(s[i]) == 'y' && LowerChar(s[i + 1]) == 'a') {
      var pair := [LowerChar(s[i]), LowerChar(s[i + 1])];
      assert pair != "ya";
    }
    NotContainsCI(s, "pitch");
    NotContainsCI(s, "roll");
    NotContainsCI(s, "yaw");
  }

  /** The examples: a session with regressors `pitch_1` and `x_trans` has
      motion regressors... */
  lemma MotregExamplePitch()
    ensures MotregOf([Str("pitch_1"), Str("x_trans")]) == Ok(true)
  {
    assert ToLower("pitch_1"[..5]) == "pitch";
    assert IsMotionName("pitch_1");
  }

  /** ...one with `x_trans` and `y_trans` has none... */
  lemma MotregExampleTranslations()
    ensures MotregOf([Str("x_trans"), Str("y_trans")]) == Ok(false)
  {
    TranslationNotMotion('x');
    TranslationNotMotion('y');
    TranslationNames();
    MotregOfNeither("x_trans", "y_trans");
  }

  /** Two string regressors, neither a motion name: no motion regressors. */
  lemma MotregOfNeither(a: string, b: string)
    requires !IsMotionName(a) && !IsMotionName(b)
    ensures MotregOf([Str(a), Str(b)]) == Ok(false)
  {
    var regs := [Str(a), Str(b)];
    MotregOfAt(regs, 0);
    MotregOfAt(regs, 1);
    assert regs[0..] == regs;
    assert regs[2..] == [];
  }

  /** Solver helper: the translation names spelled out. */
  lemma TranslationNames()
    ensures ['x'] + "_trans" == "x_trans"
    ensures ['y'] + "_trans" == "y_trans"
  {
  }

  /** No translation regressor (`x_trans`, `y_trans`, `z_trans`) names a
      motion parameter. */
  lemma TranslationNotMotion(axis: char)
    requires axis == 'x' || axis == 'y' || axis == 'z'
    ensures !IsMotionName([axis] + "_trans")
  {
    var s := [axis] + "_trans";
    assert s[1..] == "_trans";
    NotMotionName(s);
  }

  /** ...and `ROLL_2` counts, because case is ignored. */
  lemma MotregExampleUpperCase()
    ensures MotregOf([Str("ROLL_2")]) == Ok(true)
  {
    assert ToLower("ROLL_2"[..4]) == "roll";
    assert IsMotionName("ROLL_2");
  }

  // ---------------------------------------------------------------------
  // SPMMAT1._read_design

  /** `x[name]` on a value returned by `flatten`: a single record gives its
      field; a list cannot be indexed by a string. */
  function ItemField(x: Item, name: string): (r: Result<Value>)
    ensures x.Val? && x.v.Rec? ==> (r.Ok? <==> name in x.v.fields)
    ensures x.Val? && x.v.Rec? && r.Ok? ==> r.value == x.v.fields[name]
    ensures !x.Val? ==> r == Err(NotAStruct)
  {
    match x
    case Val(v) => Field(v, name)
    case _ => Err(NotAStruct)
  }

  /** A value that `re.sub` and `lower()` accept: a single string. */
  function AsString(x: Item): (r: Result<string>)
    ensures r.Ok? <==> x.Val? && x.v.Str?
    ensures r.Ok? ==> r.value == x.v.s
  {
    match x
    case Val(Str(s)) => Ok(s)
    case _ => Err(NotAString)
  }

  /** The five design features before post-processing. */
  datatype DesignRaw = DesignRaw(basis: Item, nsess: Item, rt: string, hpf: string, norm: string)

  /** The flattened sub-field `name` of the flattened `xsDes` record. */
  function DesignItem(xs: Item, name: string): Result<Item>
  {
    match ItemField(xs, name)
    case Err(e) => Err(e)
    case Ok(v) => Ok(Flat(v))
  }

  /** The flattened sub-field `name` of `xsDes`, which must be a string. */
  function DesignText(xs: Item, name: string): Result<string>
  {
    match DesignItem(xs, name)
    case Err(e) => Err(e)
    case Ok(x) => AsString(x)
  }

  /** The reads of `_read_design`, in the order the source performs them. */
  function ReadDesignRaw(mat: Value): Result<DesignRaw>
  {
    match ReadFlat(mat, [Key("xsDes")])
    case Err(e) => Err(e)
    case Ok(xs) =>
      match DesignItem(xs, "Basis_functions")
      case Err(e) => Err(e)
      case Ok(basis) =>
        match DesignItem(xs, "Number_of_sessions")
        case Err(e) => Err(e)
        case Ok(nsess) =>
          match DesignText(xs, "Interscan_interval")
          case Err(e) => Err(e)
          case Ok(rt) =>
            match DesignText(xs, "High_pass_Filter")
            case Err(e) => Err(e)
            case Ok(hpf) =>
              match DesignText(xs, "Global_normalisation")
              case Err(e) => Err(e)
              case Ok(norm) => Ok(DesignRaw(basis, nsess, rt, hpf, norm))
  }

  /** The cleaned high-pass filter text: annotations removed first, then
      the `cutoff:` label. */
  function CleanHpf(hpf: string): string
  {
    RemoveCutoff(StripAnnotations(hpf))
  }

  /** `_read_design`: a dictionary with exactly the keys basis, nsess, rt,
      hpf and norm; rt without its annotations, hpf without annotations or
      label, norm lower-cased. */
  function ReadDesign(mat: Value): (r: Result<map<string, Item>>)
    ensures r.Ok? <==> ReadDesignRaw(mat).Ok?
    ensures r.Ok? ==> r.value.Keys == {"basis", "nsess", "rt", "hpf", "norm"}
    ensures r.Ok? ==>
      var d := ReadDesignRaw(mat).value;
      && r.value["basis"] == d.basis && r.value["nsess"] == d.nsess
      && r.value["rt"] == Val(Str(StripAnnotations(d.rt)))
      && r.value["hpf"] == Val(Str(CleanHpf(d.hpf)))
      && r.value["norm"] == Val(Str(ToLower(d.norm)))
  {
    match ReadDesignRaw(mat)
    case Err(e) => Err(e)
    case Ok(d) =>
      Ok(map[
        "basis" := d.basis,
        "nsess" := d.nsess,
        "rt" := Val(Str(StripAnnotations(d.rt))),
        "hpf" := Val(Str(CleanHpf(d.hpf))),
        "norm" := Val(Str(ToLower(d.norm)))])
  }

  /** The example repetition time: `2.5 {TR}` becomes `2.5`. */
  lemma RtExample()
    ensures StripAnnotations("2.5 {TR}") == "2.5"
  {
    StripAnnotationsRemoves("2.5", " ", "TR", "");
    assert "2.5" + " " + "{" + "TR" + "}" + "" == "2.5 {TR}";
  }

  /** `Cutoff: 128` loses its label. */
  lemma CutoffLabelExample()
    ensures RemoveCutoff("Cutoff: 128") == "128"
  {
    assert ToLower("Cutoff:") == "cutoff:";
    RemoveCutoffLeading("Cutoff:", " ", "128");
    assert "Cutoff:" + " " + "128" == "Cutoff: 128";
    RemoveCutoffNoLabel("128");
  }

  /** The example high-pass filter: `Cutoff: 128 {seconds}` becomes `128`. */
  lemma HpfExample()
    ensures CleanHpf("Cutoff: 128 {seconds}") == "128"
  {
    HpfAnnotationExample();
    CutoffLabelExample();
  }

  /** `Cutoff: 128 {seconds}` loses its annotation. */
  lemma HpfAnnotationExample()
    ensures StripAnnotations("Cutoff: 128 {seconds}") == "Cutoff: 128"
  {
    HpfTextParts();
    StripAnnotationsRemoves("Cutoff: 128", " ", "seconds", "");
  }

  /** Solver helper for the literal `Cutoff: 128 {seconds}`: its parts. */
  lemma HpfTextParts()
    ensures forall i :: 0 <= i < |"Cutoff: 128"| ==> "Cutoff: 128"[i] != '{'
    ensures !IsSpace("Cutoff: 128"[10])
    ensures forall i :: 0 <= i < |"seconds"| ==> "seconds"[i] != '}' && "seconds"[i] != '\n'
    ensures "Cutoff: 128" + " " + "{" + "seconds" + "}" + "" == "Cutoff: 128 {seconds}"
  {
    HpfTextJoin();
  }

  /** Solver helper: the parts of `Cutoff: 128 {seconds}` join up. */
  lemma HpfTextJoin()
    ensures "Cutoff: 128" + " " + "{" + "seconds" + "}" + "" == "Cutoff: 128 {seconds}"
  {
  }

  /** Stripping the annotation out of `cutoff{x}:5` leaves `cutoff:5`. */
  lemma StripInsideLabelExample()
    ensures StripAnnotations("cutoff{x}:5") == "cutoff:5"
  {
    InsideLabelParts();
    StripAnnotationsRemoves("cutoff", "", "x", ":5");
    StripAnnotationsNoBrace(":5");
  }

  /** Solver helper for the literal `cutoff{x}:5`: its parts. */
  lemma InsideLabelParts()
    ensures forall i :: 0 <= i < |"cutoff"| ==> "cutoff"[i] != '{'
    ensures !IsSpace("cutoff"[5])
    ensures forall i :: 0 <= i < |"x"| ==> "x"[i] != '}' && "x"[i] != '\n'
    ensures forall i :: 0 <= i < |":5"| ==> ":5"[i] != '{'
    ensures "cutoff" + "" + "{" + "x" + "}" + ":5" == "cutoff{x}:5"
    ensures "cutoff" + ":5" == "cutoff:5"
  {
    InsideLabelJoin();
  }

  /** Solver helper: the parts of `cutoff{x}:5` join up. */
  lemma InsideLabelJoin()
    ensures "cutoff" + "" + "{" + "x" + "}" + ":5" == "cutoff{x}:5"
    ensures "cutoff" + ":5" == "cutoff:5"
  {
  }

  /** `cutoff{x}:5` holds no label, so the label substitution alone leaves
      it as it is. */
  lemma NoLabelExample()
    ensures RemoveCutoff("cutoff{x}:5") == "cutoff{x}:5"
  {
    var s := "cutoff{x}:5";
    forall i | 0 <= i < |s| ensures !LabelAt(s[i..]) {
      if |s[i..]| >= 7 {
        assert s[i..][..7][6 - i] == s[6];
        assert ToLower(s[i..][..7])[6 - i] == LowerChar(s[6]);
      }
    }
    RemoveCutoffNoLabel(s);
  }

  /** The two substitutions on the high-pass filter text do not commute:
      an annotation inside the label hides the label from the second
      substitution only when it is applied first. */
  lemma HpfOrderMatters()
    ensures CleanHpf("cutoff{x}:5") == "5"
    ensures StripAnnotations(RemoveCutoff("cutoff{x}:5")) == "cutoff:5"
  {
    StripInsideLabelExample();
    NoLabelExample();
    CutoffFiveExample();
  }

  /** `cutoff:5` loses its label. */
  lemma CutoffFiveExample()
    ensures RemoveCutoff("cutoff:5") == "5"
  {
    assert ToLower("cutoff:") == "cutoff:";
    RemoveCutoffLeading("cutoff:", "", "5");
    assert "cutoff:" + "" + "5" == "cutoff:5";
    RemoveCutoffNoLabel("5");
  }

  // ---------------------------------------------------------------------
  // SPMMAT2._read_contrasts and get_image

  /** The flattened values at each path, stored under each name, read
      from left to right and failing at the first path that fails. */
  function ReadFields(v: Value, fs: seq<(string, seq<Step>)>): Result<Entry>
    decreases |fs|
  {
    if fs == [] then Ok(map[])
    else
      match ReadFlat(v, fs[0].1)
      case Err(e) => Err(e)
      case Ok(x) =>
        match ReadFields(v, fs[1..])
        case Err(e) => Err(e)
        case Ok(m) => Ok(m[fs[0].0 := x])
  }

  /** The dictionary read has exactly the names as keys. */
  lemma {:induction false} ReadFieldsKeys(v: Value, fs: seq<(string, seq<Step>)>)
    requires ReadFields(v, fs).Ok?
    ensures ReadFields(v, fs).value.Keys == set i | 0 <= i < |fs| :: fs[i].0
    decreases |fs|
  {
    if fs != [] {
      ReadFieldsKeys(v, fs[1..]);
      var rest := set i | 0 <= i < |fs[1..]| :: fs[1..][i].0;
      var all := set i | 0 <= i < |fs| :: fs[i].0;
      assert all == {fs[0].0} + rest by {
        forall k | k in all ensures k in {fs[0].0} + rest {
          var i :| 0 <= i < |fs| && fs[i].0 == k;
          if i > 0 { assert fs[1..][i - 1].0 == k; }
        }
        forall k | k in rest ensures k in all {
          var i :| 0 <= i < |fs[1..]| && fs[1..][i].0 == k;
          assert fs[i + 1].0 == k;
        }
      }
    }
  }

  /** The fields of one contrast dictionary and where each is read from. */
  function ContrastPaths(i: nat): seq<(string, seq<Step>)>
  {
    [("name", [Key("name"), At(0), At(i)]),
     ("stat", [Key("STAT"), At(0), At(i)]),
     ("eidf", [Key("eidf"), At(0), At(i)]),
     ("con_file", [Key("Vcon"), At(0), At(i), Key("fname")]),
     ("spm_file", [Key("Vspm"), At(0), At(i), Key("fname")]),
     ("descrip", [Key("Vcon"), At(0), At(i), Key("descrip")])]
  }

  const ContrastKeys: set<string> := {"name", "stat", "eidf", "con_file", "spm_file", "descrip"}

  /** The six fields of contrast `i` of `xCon`. */
  function ContrastAt(xcon: Value, i: nat): Result<Entry>
  {
    ReadFields(xcon, ContrastPaths(i))
  }

  /** A contrast that can be read has exactly the six keys. */
  lemma ContrastAtKeys(xcon: Value, i: nat)
    requires ContrastAt(xcon, i).Ok?
    ensures ContrastAt(xcon, i).value.Keys == ContrastKeys
  {
    var fs := ContrastPaths(i);
    ReadFieldsKeys(xcon, fs);
    assert fs[0].0 == "name" && fs[1].0 == "stat" && fs[2].0 == "eidf";
    assert fs[3].0 == "con_file" && fs[4].0 == "spm_file" && fs[5].0 == "descrip";
    assert (set j | 0 <= j < |fs| :: fs[j].0) == ContrastKeys;
  }

  /** `get_image(contrast, key)` on the dictionary's value: adds
      `<key>_image` when the key is present and the load succeeds; any
      failure leaves the dictionary as it was. */
  function Link(dir: string, load: Loader, c: Entry, key: string): (r: Entry)
    ensures key in c && load(dir, c[key]).Some? ==>
      r == c[key + "_image" := Image(load(dir, c[key]).value)]
    ensures !(key in c && load(dir, c[key]).Some?) ==> r == c
  {
    if key in c then
      match load(dir, c[key])
      case Some(h) => c[key + "_image" := Image(h)]
      case None => c
    else c
  }

  /** A contrast after both image links. */
  function Linked(dir: string, load: Loader, c: Entry): Entry
  {
    Link(dir, load, Link(dir, load, c, "con_file"), "spm_file")
  }

  /** Linking a contrast adds at most the two image keys, each exactly when
      its image loads, and changes none of the six fields. */
  lemma LinkedKeys(dir: string, load: Loader, c: Entry)
    requires c.Keys == ContrastKeys
    ensures c.Keys <= Linked(dir, load, c).Keys <= c.Keys + {"con_file_image", "spm_file_image"}
    ensures forall k :: k in c ==> Linked(dir, load, c)[k] == c[k]
    ensures "con_file_image" in Linked(dir, load, c) <==> load(dir, c["con_file"]).Some?
    ensures "spm_file_image" in Linked(dir, load, c) <==> load(dir, c["spm_file"]).Some?
  {
    assert "con_file" + "_image" == "con_file_image";
    assert "spm_file" + "_image" == "spm_file_image";
  }

  /** The first `n` contrasts, linked, failing at the first contrast that
      cannot be read. */
  function ContrastsUpTo(dir: string, load: Loader, xcon: Value, n: nat): (r: Result<seq<Entry>>)
    ensures r.Ok? ==> |r.value| == n
  {
    if n == 0 then Ok([])
    else
      match ContrastsUpTo(dir, load, xcon, n - 1)
      case Err(e) => Err(e)
      case Ok(cs) =>
        match ContrastAt(xcon, n - 1)
        case Err(e) => Err(e)
        case Ok(c) => Ok(cs + [Linked(dir, load, c)])
  }

  /** The number of contrasts: `len(xcon['name'][0])`. */
  function ContrastCount(xcon: Value): Result<nat>
  {
    match Walk(xcon, [Key("name"), At(0)])
    case Err(e) => Err(e)
    case Ok(names) => Len(names)
  }

  /** `_read_contrasts` as a function of the object. */
  function ContrastsSpec(spm: Spm, load: Loader): (r: Result<seq<Entry>>)
    ensures r.Ok? ==> Field(spm.mat, "xCon").Ok? && ContrastCount(Field(spm.mat, "xCon").value).Ok?
    ensures r.Ok? ==> |r.value| == ContrastCount(Field(spm.mat, "xCon").value).value
  {
    match Field(spm.mat, "xCon")
    case Err(e) => Err(e)
    case Ok(xcon) =>
      match ContrastCount(xcon)
      case Err(e) => Err(e)
      case Ok(n) => ContrastsUpTo(spm.path, load, xcon, n)
  }

  /** Once a contrast fails to read, the whole list fails with that error. */
  lemma {:induction false} ContrastsUpToErr(dir: string, load: Loader, xcon: Value, k: nat, n: nat)
    requires k <= n
    requires ContrastsUpTo(dir, load, xcon, k).Err?
    ensures ContrastsUpTo(dir, load, xcon, n) == ContrastsUpTo(dir, load, xcon, k)
    decreases n - k
  {
    if k < n {
      ContrastsUpToErr(dir, load, xcon, k, n - 1);
    }
  }

  /** When every one of the first `n` contrasts can be read, so can the
      list of them. */
  lemma {:induction false} ContrastsUpToOk(dir: string, load: Loader, xcon: Value, n: nat)
    requires forall i :: 0 <= i < n ==> ContrastAt(xcon, i).Ok?
    ensures ContrastsUpTo(dir, load, xcon, n).Ok?
  {
    if n > 0 {
      ContrastsUpToOk(dir, load, xcon, n - 1);
      assert ContrastAt(xcon, n - 1).Ok?;
    }
  }

  /** A contrast that cannot be read makes the whole list fail. */
  lemma {:induction false} ContrastsUpToFails(dir: string, load: Loader, xcon: Value, n: nat, i: nat)
    requires i < n
    requires ContrastAt(xcon, i).Err?
    ensures ContrastsUpTo(dir, load, xcon, n).Err?
  {
    if i < n - 1 {
      ContrastsUpToFails(dir, load, xcon, n - 1, i);
    }
  }

  /** The list holds one entry per contrast, in index order: entry `i` is
      contrast `i`'s six fields, linked. */
  lemma {:induction false} ContrastsUpToEntries(dir: string, load: Loader, xcon: Value, n: nat, i: nat)
    requires ContrastsUpTo(dir, load, xcon, n).Ok?
    requires i < n
    ensures ContrastAt(xcon, i).Ok?
    ensures ContrastsUpTo(dir, load, xcon, n).value[i] == Linked(dir, load, ContrastAt(xcon, i).value)
  {
    var prev := ContrastsUpTo(dir, load, xcon, n - 1);
    assert prev.Ok?;
    if i < n - 1 {
      ContrastsUpToEntries(dir, load, xcon, n - 1, i);
      assert ContrastsUpTo(dir, load, xcon, n).value == prev.value + [Linked(dir, load, ContrastAt(xcon, n - 1).value)];
    }
  }

  /** Every entry of a contrast list holds the six fields and, besides
      them, only the image keys whose images loaded. */
  lemma ContrastEntriesShape(spm: Spm, load: Loader, i: nat)
    requires ContrastsSpec(spm, load).Ok?
    requires i < |ContrastsSpec(spm, load).value|
    ensures var xcon := Field(spm.mat, "xCon").value;
      && ContrastAt(xcon, i).Ok?
      && var c := ContrastAt(xcon, i).value;
      && c.Keys == ContrastKeys
      && ContrastsSpec(spm, load).value[i] == Linked(spm.path, load, c)
      && c.Keys <= ContrastsSpec(spm, load).value[i].Keys <= c.Keys + {"con_file_image", "spm_file_image"}
      && ("con_file_image" in ContrastsSpec(spm, load).value[i] <==> load(spm.path, c["con_file"]).Some?)
      && ("spm_file_image" in ContrastsSpec(spm, load).value[i] <==> load(spm.path, c["spm_file"]).Some?)
  {
    var xcon := Field(spm.mat, "xCon").value;
    var n := ContrastCount(xcon).value;
    ContrastsUpToEntries(spm.path, load, xcon, n, i);
    ContrastAtKeys(xcon, i);
    LinkedKeys(spm.path, load, ContrastAt(xcon, i).value);
  }

  /** A contrast dictionary that `get_image` updates in place. */
  class Contrast {
    var fields: Entry

    constructor (fields: Entry)
      ensures this.fields == fields
    {
      this.fields := fields;
    }
  }

  /** `get_image`: stores the loaded image under `<key>_image`; on any
      failure the contrast is left unchanged and nothing is raised. */
  method GetImage(spm: Spm, load: Loader, contrast: Contrast, key: string)
    modifies contrast
    ensures contrast.fields == Link(spm.path, load, old(contrast.fields), key)
  {
    if key in contrast.fields {
      var img := load(spm.path, contrast.fields[key]);
      if img.Some? {
        contrast.fields := contrast.fields[key + "_image" := Image(img.value)];
      }
    }
  }

  /** `_read_contrasts`: builds each contrast dictionary, links its two
      images and appends it, in index order. */
  method ReadContrasts(spm: Spm, load: Loader) returns (r: Result<seq<Entry>>)
    ensures r == ContrastsSpec(spm, load)
  {
    var xconR := Field(spm.mat, "xCon");
    if xconR.Err? {
      return Err(xconR.error);
    }
    var xcon := xconR.value;
    var ncon := ContrastCount(xcon);
    if ncon.Err? {
      return Err(ncon.error);
    }
    var contrasts: seq<Entry> := [];
    for conidx := 0 to ncon.value
      invariant ContrastsUpTo(spm.path, load, xcon, conidx) == Ok(contrasts)
    {
      var fields := ContrastAt(xcon, conidx);
      if fields.Err? {
        ContrastsUpToErr(spm.path, load, xcon, conidx + 1, ncon.value);
        return Err(fields.error);
      }
      var contrast := new Contrast(fields.value);
      GetImage(spm, load, contrast, "con_file");
      GetImage(spm, load, contrast, "spm_file");
      contrasts := contrasts + [contrast.fields];
    }
    return Ok(contrasts);
  }
}
