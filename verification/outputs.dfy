/** What `read_all` returns for each of the two SPM.mat layouts: which
    rules it applies, when it raises, and the dictionary it builds. */
module Outputs {
  import opened Values
  import opened Rules
  import opened Reader

  /** Proof step, unfolding one rule.
      What the autocorrelation rule computes: the flattened `xVi.form`. */
  lemma AutocorrApplied(spm: Spm, load: Loader)
    ensures ApplySpec(spm, load, Autocorr) == Lift(ReadFlat(spm.mat, AutocorrPath))
  {
  }

  /** Proof step, unfolding one rule.
      What the design-description rule computes: the flattened
      `xsDes.Design`. */
  lemma DesApplied(spm: Spm, load: Loader)
    ensures ApplySpec(spm, load, Des) == Lift(ReadFlat(spm.mat, DesPath))
  {
  }

  /** Proof step, unfolding one rule.
      What the data-description rule computes: the flattened
      `xY.VY.descrip`. */
  lemma DescripApplied(spm: Spm, load: Loader)
    ensures ApplySpec(spm, load, Descrip) == Lift(ReadFlat(spm.mat, DescripPath))
  {
  }

  /** Proof step, unfolding one rule.
      What the rules both subclasses inherit compute. */
  lemma SharedRulesApplied(spm: Spm, load: Loader)
    ensures ApplySpec(spm, load, Nscan) == Lift(ReadNscan(spm.mat))
    ensures ApplySpec(spm, load, Spmid) == Lift(ReadFlat(spm.mat, SpmidPath))
    ensures ApplySpec(spm, load, Swd) == Lift(ReadFlat(spm.mat, SwdPath))
  {
  }

  /** Proof step, unfolding one rule.
      What the motion rule computes: a flag. */
  lemma MotregApplied(spm: Spm, load: Loader)
    ensures ApplySpec(spm, load, Motreg).Ok? <==> MotregSpec(spm.mat).Ok?
    ensures MotregSpec(spm.mat).Ok? ==>
      ApplySpec(spm, load, Motreg) == Ok(Single(Flag(MotregSpec(spm.mat).value)))
  {
  }

  /** Proof step, unfolding one rule.
      What the design rule computes: a dictionary. */
  lemma DesignApplied(spm: Spm, load: Loader)
    ensures ApplySpec(spm, load, Design).Ok? <==> ReadDesign(spm.mat).Ok?
    ensures ReadDesign(spm.mat).Ok? ==> ApplySpec(spm, load, Design) == Ok(Batch(ReadDesign(spm.mat).value))
  {
  }

  /** Proof step, unfolding one rule.
      What the contrasts rule computes: the list of contrasts. */
  lemma ContrastsApplied(spm: Spm, load: Loader)
    ensures ApplySpec(spm, load, ContrastsRule).Ok? <==> ContrastsSpec(spm, load).Ok?
    ensures ContrastsSpec(spm, load).Ok? ==>
      ApplySpec(spm, load, ContrastsRule) == Ok(Single(Contrasts(ContrastsSpec(spm, load).value)))
  {
  }

  /** The rules both subclasses end with: nscan, spmid and swd. */
  function CommonTail(): seq<RuleId>
  {
    [Nscan] + ([Spmid] + ([Swd] + []))
  }

  /** Running the common rules stores their three values. */
  lemma RunCommonTail(spm: Spm, load: Loader, acc: Entry, n: Item, s: Item, w: Item)
    requires ApplySpec(spm, load, Nscan) == Ok(Single(n))
    requires ApplySpec(spm, load, Spmid) == Ok(Single(s))
    requires ApplySpec(spm, load, Swd) == Ok(Single(w))
    ensures Run(spm, load, CommonTail(), acc) == Ok(acc["nscan" := n]["spmid" := s]["swd" := w])
  {
    var t2: seq<RuleId> := [];
    var t1 := [Swd] + t2;
    var t0 := [Spmid] + t1;
    RunSingle(spm, load, Swd, t2, acc["nscan" := n]["spmid" := s], w);
    RunSingle(spm, load, Spmid, t1, acc["nscan" := n], s);
    RunSingle(spm, load, Nscan, t0, acc, n);
  }

  // ---------------------------------------------------------------------
  // SPM2 and later (SPMMAT2)

  /** Solver helper: the rules of `SPMMAT2` as a chain of one-rule
      prefixes. */
  lemma Spm2Order()
    ensures RuleOrder(Spm2) == [ContrastsRule] + ([Des] + ([Descrip] + ([Nscan] + ([Spmid] + ([Swd] + [])))))
  {
  }

  /** Every rule of `SPMMAT2` succeeds iff each one does. */
  lemma Spm2AllOk(spm: Spm, load: Loader)
    ensures AllOk(spm, load, RuleOrder(Spm2)) <==>
      ApplySpec(spm, load, ContrastsRule).Ok? && ApplySpec(spm, load, Des).Ok?
      && ApplySpec(spm, load, Descrip).Ok? && ApplySpec(spm, load, Nscan).Ok?
      && ApplySpec(spm, load, Spmid).Ok? && ApplySpec(spm, load, Swd).Ok?
  {
    var t5: seq<RuleId> := [];
    var t4 := [Swd] + t5;
    var t3 := [Spmid] + t4;
    var t2 := [Nscan] + t3;
    var t1 := [Descrip] + t2;
    var t0 := [Des] + t1;
    AllOkCons(spm, load, Swd, t5);
    AllOkCons(spm, load, Spmid, t4);
    AllOkCons(spm, load, Nscan, t3);
    AllOkCons(spm, load, Descrip, t2);
    AllOkCons(spm, load, Des, t1);
    AllOkCons(spm, load, ContrastsRule, t0);
    Spm2Order();
  }

  /** `read_all` on an `SPMMAT2` raises iff one of its rules does: the
      contrasts cannot be read, or one of `xsDes.Design`,
      `xY.VY.descrip`, `nscan`, `SPMid`, `swd` is missing (or `nscan`
      holds no number). */
  lemma ReadAllSpm2Ok(spm: Spm, load: Loader)
    requires spm.variant == Spm2
    ensures ReadAllSpec(spm, load).Ok? <==>
      ContrastsSpec(spm, load).Ok? && Walk(spm.mat, DesPath).Ok?
      && Walk(spm.mat, DescripPath).Ok? && ReadNscan(spm.mat).Ok?
      && Walk(spm.mat, SpmidPath).Ok? && Walk(spm.mat, SwdPath).Ok?
  {
    ReadAllOk(spm, load);
    Spm2AllOk(spm, load);
    DesApplied(spm, load);
    DescripApplied(spm, load);
    SharedRulesApplied(spm, load);
    ContrastsApplied(spm, load);
  }

  /** Running the rules of `SPMMAT2` when each yields a single value. */
  lemma RunSpm2Rules(spm: Spm, load: Loader, c: Item, d: Item, e: Item, n: Item, s: Item, w: Item)
    requires ApplySpec(spm, load, ContrastsRule) == Ok(Single(c))
    requires ApplySpec(spm, load, Des) == Ok(Single(d))
    requires ApplySpec(spm, load, Descrip) == Ok(Single(e))
    requires ApplySpec(spm, load, Nscan) == Ok(Single(n))
    requires ApplySpec(spm, load, Spmid) == Ok(Single(s))
    requires ApplySpec(spm, load, Swd) == Ok(Single(w))
    ensures Run(spm, load, RuleOrder(Spm2), map[]) ==
      Ok(map["contrasts" := c, "des" := d, "descrip" := e, "nscan" := n, "spmid" := s, "swd" := w])
  {
    var t2 := CommonTail();
    var t1 := [Descrip] + t2;
    var t0 := [Des] + t1;
    var m0: Entry := map["contrasts" := c];
    var m1 := m0["des" := d];
    var m2 := m1["descrip" := e];
    RunCommonTail(spm, load, m2, n, s, w);
    RunSingle(spm, load, Descrip, t2, m1, e);
    RunSingle(spm, load, Des, t1, m0, d);
    RunSingle(spm, load, ContrastsRule, t0, map[], c);
    Spm2Order();
  }

  /** The record `read_all` extracts from an `SPMMAT2`: the contrasts, the
      design description, the data description, the scan counts, the SPM
      version and the working directory, each under its rule's key and
      nothing else. */
  lemma ReadAllSpm2Values(spm: Spm, load: Loader)
    requires spm.variant == Spm2
    requires ReadAllSpec(spm, load).Ok?
    ensures ContrastsSpec(spm, load).Ok? && ReadFlat(spm.mat, DesPath).Ok?
      && ReadFlat(spm.mat, DescripPath).Ok? && ReadNscan(spm.mat).Ok?
      && ReadFlat(spm.mat, SpmidPath).Ok? && ReadFlat(spm.mat, SwdPath).Ok?
    ensures ReadAllSpec(spm, load).value ==
      map["contrasts" := Contrasts(ContrastsSpec(spm, load).value),
          "des" := ReadFlat(spm.mat, DesPath).value,
          "descrip" := ReadFlat(spm.mat, DescripPath).value,
          "nscan" := ReadNscan(spm.mat).value,
          "spmid" := ReadFlat(spm.mat, SpmidPath).value,
          "swd" := ReadFlat(spm.mat, SwdPath).value]
  {
    ReadAllSpm2Ok(spm, load);
    DesApplied(spm, load);
    DescripApplied(spm, load);
    SharedRulesApplied(spm, load);
    ContrastsApplied(spm, load);
    RunSpm2Rules(spm, load, Contrasts(ContrastsSpec(spm, load).value),
      ReadFlat(spm.mat, DesPath).value, ReadFlat(spm.mat, DescripPath).value,
      ReadNscan(spm.mat).value, ReadFlat(spm.mat, SpmidPath).value, ReadFlat(spm.mat, SwdPath).value);
    assert ReadAllSpec(spm, load) == Run(spm, load, RuleOrder(Spm2), map[]);
  }

  // ---------------------------------------------------------------------
  // SPM99 (SPMMAT1)

  /** Solver helper: the rules of `SPMMAT1` as a chain of one-rule
      prefixes. */
  lemma Spm1Order()
    ensures RuleOrder(Spm1) ==
      [Autocorr] + ([Descrip] + ([Design] + ([Motreg] + ([Nscan] + ([Spmid] + ([Swd] + []))))))
  {
  }

  /** Every rule of `SPMMAT1` succeeds iff each one does. */
  lemma Spm1AllOk(spm: Spm, load: Loader)
    ensures AllOk(spm, load, RuleOrder(Spm1)) <==>
      ApplySpec(spm, load, Autocorr).Ok? && ApplySpec(spm, load, Descrip).Ok?
      && ApplySpec(spm, load, Design).Ok? && ApplySpec(spm, load, Motreg).Ok?
      && ApplySpec(spm, load, Nscan).Ok? && ApplySpec(spm, load, Spmid).Ok?
      && ApplySpec(spm, load, Swd).Ok?
  {
    var t6: seq<RuleId> := [];
    var t5 := [Swd] + t6;
    var t4 := [Spmid] + t5;
    var t3 := [Nscan] + t4;
    var t2 := [Motreg] + t3;
    var t1 := [Design] + t2;
    var t0 := [Descrip] + t1;
    AllOkCons(spm, load, Swd, t6);
    AllOkCons(spm, load, Spmid, t5);
    AllOkCons(spm, load, Nscan, t4);
    AllOkCons(spm, load, Motreg, t3);
    AllOkCons(spm, load, Design, t2);
    AllOkCons(spm, load, Descrip, t1);
    AllOkCons(spm, load, Autocorr, t0);
    Spm1Order();
  }

  /** `read_all` on an `SPMMAT1` raises iff one of its rules does: one of
      `xVi.form`, `xY.VY.descrip`, `nscan`, `SPMid`, `swd` is missing (or
      `nscan` holds no number), the regressor names cannot be read, or the
      design fields cannot. */
  lemma ReadAllSpm1Ok(spm: Spm, load: Loader)
    requires spm.variant == Spm1
    ensures ReadAllSpec(spm, load).Ok? <==>
      Walk(spm.mat, AutocorrPath).Ok? && Walk(spm.mat, DescripPath).Ok?
      && ReadDesign(spm.mat).Ok? && MotregSpec(spm.mat).Ok? && ReadNscan(spm.mat).Ok?
      && Walk(spm.mat, SpmidPath).Ok? && Walk(spm.mat, SwdPath).Ok?
  {
    ReadAllOk(spm, load);
    Spm1AllOk(spm, load);
    AutocorrApplied(spm, load);
    DescripApplied(spm, load);
    SharedRulesApplied(spm, load);
    MotregApplied(spm, load);
    DesignApplied(spm, load);
  }

  /** Running the rules of `SPMMAT1`: the design dictionary is merged in
      between the data description and the motion flag. */
  lemma RunSpm1Rules(spm: Spm, load: Loader, a: Item, e: Item, design: Entry, m: Item, n: Item, s: Item, w: Item)
    requires ApplySpec(spm, load, Autocorr) == Ok(Single(a))
    requires ApplySpec(spm, load, Descrip) == Ok(Single(e))
    requires ApplySpec(spm, load, Design) == Ok(Batch(design))
    requires ApplySpec(spm, load, Motreg) == Ok(Single(m))
    requires ApplySpec(spm, load, Nscan) == Ok(Single(n))
    requires ApplySpec(spm, load, Spmid) == Ok(Single(s))
    requires ApplySpec(spm, load, Swd) == Ok(Single(w))
    ensures Run(spm, load, RuleOrder(Spm1), map[]) ==
      Ok((map["autocorr" := a, "descrip" := e] + design)["motreg" := m]["nscan" := n]["spmid" := s]["swd" := w])
  {
    var t3 := CommonTail();
    var t2 := [Motreg] + t3;
    var t1 := [Design] + t2;
    var t0 := [Descrip] + t1;
    var m0: Entry := map["autocorr" := a];
    var m1 := m0["descrip" := e];
    var m2 := m1 + design;
    var m3 := m2["motreg" := m];
    RunCommonTail(spm, load, m3, n, s, w);
    RunSingle(spm, load, Motreg, t3, m2, m);
    RunBatch(spm, load, Design, t2, m1, design);
    RunSingle(spm, load, Descrip, t1, m0, e);
    RunSingle(spm, load, Autocorr, t0, map[], a);
    Spm1Order();
  }

  /** The keys of the design dictionary. */
  const DesignKeys: set<string> := {"basis", "nsess", "rt", "hpf", "norm"}

  /** The keys of the record extracted from an `SPMMAT1`. */
  const Spm1Keys: set<string> :=
    {"autocorr", "descrip", "motreg", "nscan", "spmid", "swd"} + DesignKeys

  /** The merged record holds each rule's value under its own key: no rule
      overwrites another, because the design keys differ from the rule
      keys. */
  lemma Spm1Layout(a: Item, e: Item, design: Entry, m: Item, n: Item, s: Item, w: Item)
    requires design.Keys == DesignKeys
    ensures var r := (map["autocorr" := a, "descrip" := e] + design)["motreg" := m]["nscan" := n]["spmid" := s]["swd" := w];
      r.Keys == Spm1Keys
      && r["autocorr"] == a && r["descrip"] == e && r["motreg"] == m
      && r["nscan"] == n && r["spmid"] == s && r["swd"] == w
      && forall k :: k in design ==> r[k] == design[k]
  {
    var r0 := map["autocorr" := a, "descrip" := e];
    assert "autocorr" !in design && "descrip" !in design;
    assert (r0 + design)["autocorr"] == a;
  }

  /** The record `read_all` extracts from an `SPMMAT1`: the autocorrelation
      model, the data description, the five design fields, whether any
      regressor is a motion parameter, the scan counts, the SPM version and
      the working directory, each under its own key and nothing else. */
  lemma ReadAllSpm1Values(spm: Spm, load: Loader)
    requires spm.variant == Spm1
    requires ReadAllSpec(spm, load).Ok?
    ensures ReadFlat(spm.mat, AutocorrPath).Ok? && ReadFlat(spm.mat, DescripPath).Ok?
      && ReadDesign(spm.mat).Ok? && MotregSpec(spm.mat).Ok? && ReadNscan(spm.mat).Ok?
      && ReadFlat(spm.mat, SpmidPath).Ok? && ReadFlat(spm.mat, SwdPath).Ok?
    ensures ReadAllSpec(spm, load).value.Keys == Spm1Keys
    ensures ReadAllSpec(spm, load).value["autocorr"] == ReadFlat(spm.mat, AutocorrPath).value
    ensures ReadAllSpec(spm, load).value["descrip"] == ReadFlat(spm.mat, DescripPath).value
    ensures ReadAllSpec(spm, load).value["motreg"] == Flag(MotregSpec(spm.mat).value)
    ensures ReadAllSpec(spm, load).value["nscan"] == ReadNscan(spm.mat).value
    ensures ReadAllSpec(spm, load).value["spmid"] == ReadFlat(spm.mat, SpmidPath).value
    ensures ReadAllSpec(spm, load).value["swd"] == ReadFlat(spm.mat, SwdPath).value
    ensures forall k :: k in DesignKeys ==> ReadAllSpec(spm, load).value[k] == ReadDesign(spm.mat).value[k]
  {
    ReadAllSpm1Ok(spm, load);
    AutocorrApplied(spm, load);
    DescripApplied(spm, load);
    SharedRulesApplied(spm, load);
    MotregApplied(spm, load);
    DesignApplied(spm, load);
    var a := ReadFlat(spm.mat, AutocorrPath).value;
    var e := ReadFlat(spm.mat, DescripPath).value;
    var design := ReadDesign(spm.mat).value;
    var m := Flag(MotregSpec(spm.mat).value);
    var n := ReadNscan(spm.mat).value;
    var s := ReadFlat(spm.mat, SpmidPath).value;
    var w := ReadFlat(spm.mat, SwdPath).value;
    RunSpm1Rules(spm, load, a, e, design, m, n, s, w);
    assert ReadAllSpec(spm, load) == Run(spm, load, RuleOrder(Spm1), map[]);
    Spm1Layout(a, e, design, m, n, s, w);
  }
}
