/** `SPMMAT.read_all`, which applies every `_read*` method of the object in
    name order and merges the results into one dictionary. */
module Reader {
  import opened Values
  import opened Text
  import opened Rules

  /** The extraction rules, one per `_read_*` method. */
  datatype RuleId = Nscan | Spmid | Swd | Descrip | Autocorr | Motreg | Design | Des | ContrastsRule

  /** What a bound method of an `SPMMAT` object does: one of the rules, or
      one of the methods that are not rules. */
  datatype Body = Rule(id: RuleId) | Init | GetImageMethod | ReadAllMethod

  /** A `(name, bound method)` pair as `inspect.getmembers` lists it. */
  datatype Member = Member(name: string, body: Body)

  /** The part of a rule's method name after `_read_`. */
  function Suffix(id: RuleId): (r: string)
    ensures forall i :: 0 <= i < |r| ==> r[i] != '_'
  {
    match id
    case Nscan => "nscan"
    case Spmid => "spmid"
    case Swd => "swd"
    case Descrip => "descrip"
    case Autocorr => "autocorr"
    case Motreg => "motreg"
    case Design => "design"
    case Des => "des"
    case ContrastsRule => "contrasts"
  }

  /** The name of the method that defines a rule. */
  function MethodName(id: RuleId): string
  {
    match id
    case Nscan => "_read_nscan"
    case Spmid => "_read_spmid"
    case Swd => "_read_swd"
    case Descrip => "_read_descrip"
    case Autocorr => "_read_autocorr"
    case Motreg => "_read_motreg"
    case Design => "_read_design"
    case Des => "_read_des"
    case ContrastsRule => "_read_contrasts"
  }

  /** Every rule's method name is `_read_` followed by its suffix. */
  lemma MethodNameSplit(id: RuleId)
    ensures MethodName(id) == "_read_" + Suffix(id)
  {
    match id
    case Nscan => assert "_read_nscan" == "_read_" + "nscan";
    case Spmid => assert "_read_spmid" == "_read_" + "spmid";
    case Swd => assert "_read_swd" == "_read_" + "swd";
    case Descrip => assert "_read_descrip" == "_read_" + "descrip";
    case Autocorr => assert "_read_autocorr" == "_read_" + "autocorr";
    case Motreg => assert "_read_motreg" == "_read_" + "motreg";
    case Design => assert "_read_design" == "_read_" + "design";
    case Des => assert "_read_des" == "_read_" + "des";
    case ContrastsRule => assert "_read_contrasts" == "_read_" + "contrasts";
  }

  /** The member that defines a rule. */
  function RuleMember(id: RuleId): Member
  {
    Member(MethodName(id), Rule(id))
  }

  /** The bound methods every `SPMMAT` object has. */
  function SharedMembers(): set<Member>
  {
    {Member("__init__", Init), Member("get_image", GetImageMethod), Member("read_all", ReadAllMethod),
     RuleMember(Nscan), RuleMember(Spmid), RuleMember(Swd), RuleMember(Descrip)}
  }

  /** The bound methods of an object of the given subclass, in no order:
      `SPMMAT1` adds autocorr, motreg and design; `SPMMAT2` adds des and
      contrasts.  The static methods `flatten` and `flatten_gen` are not
      bound methods and are not listed. */
  function Declared(variant: Variant): set<Member>
  {
    match variant
    case Spm1 => SharedMembers() + {RuleMember(Autocorr), RuleMember(Motreg), RuleMember(Design)}
    case Spm2 => SharedMembers() + {RuleMember(Des), RuleMember(ContrastsRule)}
  }

  /** The rules of each subclass, sorted by method name. */
  function RuleOrder(variant: Variant): seq<RuleId>
  {
    match variant
    case Spm1 => [Autocorr, Descrip, Design, Motreg, Nscan, Spmid, Swd]
    case Spm2 => [ContrastsRule, Des, Descrip, Nscan, Spmid, Swd]
  }

  /** The members that define the rules `ids`, in the same order. */
  function RuleMembersFor(ids: seq<RuleId>): (r: seq<Member>)
    ensures |r| == |ids|
    ensures forall i :: 0 <= i < |ids| ==> r[i] == RuleMember(ids[i])
  {
    seq(|ids|, i requires 0 <= i < |ids| => RuleMember(ids[i]))
  }

  /** `inspect.getmembers(self, predicate=inspect.ismethod)`: the bound
      methods, sorted by name (`__init__` sorts before the `_read_` rules,
      which sort before `get_image` and `read_all`). */
  function Members(variant: Variant): seq<Member>
  {
    [Member("__init__", Init)] + RuleMembersFor(RuleOrder(variant))
    + [Member("get_image", GetImageMethod), Member("read_all", ReadAllMethod)]
  }

  /** Names in strictly increasing order. */
  predicate NamesSorted(ms: seq<Member>)
  {
    forall i :: 0 <= i < |ms| - 1 ==> LexLess(ms[i].name, ms[i + 1].name)
  }

  /** Two adjacent members, known by value, whose names first differ at
      position `k` (or the first of which is a prefix of the second, of
      length `k`) are in increasing name order. */
  lemma AdjacentLess(ms: seq<Member>, i: nat, a: Member, b: Member, k: nat)
    requires i + 1 < |ms| && ms[i] == a && ms[i + 1] == b
    requires k <= |a.name| && k < |b.name| && a.name[..k] == b.name[..k]
    requires k == |a.name| || a.name[k] < b.name[k]
    ensures LexLess(ms[i].name, ms[i + 1].name)
  {
    LexLessAt(a.name, b.name, k);
  }

  /** The bound methods of `SPMMAT1`, one by one. */
  lemma Spm1MemberList()
    ensures Members(Spm1) == [Member("__init__", Init), RuleMember(Autocorr), RuleMember(Descrip), RuleMember(Design),
        RuleMember(Motreg), RuleMember(Nscan), RuleMember(Spmid), RuleMember(Swd),
        Member("get_image", GetImageMethod), Member("read_all", ReadAllMethod)]
  {
  }

  /** The first names of `SPMMAT1`'s bound methods are in increasing order. */
  lemma Spm1LowSorted(ms: seq<Member>)
    requires ms == [Member("__init__", Init), RuleMember(Autocorr), RuleMember(Descrip), RuleMember(Design),
        RuleMember(Motreg), RuleMember(Nscan), RuleMember(Spmid), RuleMember(Swd),
        Member("get_image", GetImageMethod), Member("read_all", ReadAllMethod)]
    ensures forall i :: 0 <= i < 4 ==> LexLess(ms[i].name, ms[i + 1].name)
  {
    forall i | 0 <= i < 4 ensures LexLess(ms[i].name, ms[i + 1].name) {
      if i == 0 {
        AdjacentLess(ms, i, Member("__init__", Init), RuleMember(Autocorr), 1);
      } else if i == 1 {
        AdjacentLess(ms, i, RuleMember(Autocorr), RuleMember(Descrip), 6);
      } else if i == 2 {
        AdjacentLess(ms, i, RuleMember(Descrip), RuleMember(Design), 9);
      } else {
        AdjacentLess(ms, i, RuleMember(Design), RuleMember(Motreg), 6);
      }
    }
  }

  /** The last names of `SPMMAT1`'s bound methods are in increasing order. */
  lemma Spm1HighSorted(ms: seq<Member>)
    requires ms == [Member("__init__", Init), RuleMember(Autocorr), RuleMember(Descrip), RuleMember(Design),
        RuleMember(Motreg), RuleMember(Nscan), RuleMember(Spmid), RuleMember(Swd),
        Member("get_image", GetImageMethod), Member("read_all", ReadAllMethod)]
    ensures forall i :: 4 <= i < 9 ==> LexLess(ms[i].name, ms[i + 1].name)
  {
    forall i | 4 <= i < 9 ensures LexLess(ms[i].name, ms[i + 1].name) {
      if i == 4 {
        AdjacentLess(ms, i, RuleMember(Motreg), RuleMember(Nscan), 6);
      } else if i == 5 {
        AdjacentLess(ms, i, RuleMember(Nscan), RuleMember(Spmid), 6);
      } else if i == 6 {
        AdjacentLess(ms, i, RuleMember(Spmid), RuleMember(Swd), 7);
      } else if i == 7 {
        AdjacentLess(ms, i, RuleMember(Swd), Member("get_image", GetImageMethod), 0);
      } else {
        AdjacentLess(ms, i, Member("get_image", GetImageMethod), Member("read_all", ReadAllMethod), 0);
      }
    }
  }

  /** The bound methods of `SPMMAT1` are listed in increasing name order. */
  lemma Spm1MembersSorted()
    ensures NamesSorted(Members(Spm1))
  {
    Spm1MemberList();
    Spm1LowSorted(Members(Spm1));
    Spm1HighSorted(Members(Spm1));
  }

  /** The member list of `SPMMAT1` holds exactly its bound methods. */
  lemma Spm1MembersDeclared()
    ensures forall m :: m in Members(Spm1) <==> m in Declared(Spm1)
  {
    Spm1MemberList();
  }

  /** The bound methods of `SPMMAT2`, one by one. */
  lemma Spm2MemberList()
    ensures Members(Spm2) == [Member("__init__", Init), RuleMember(ContrastsRule), RuleMember(Des), RuleMember(Descrip),
        RuleMember(Nscan), RuleMember(Spmid), RuleMember(Swd),
        Member("get_image", GetImageMethod), Member("read_all", ReadAllMethod)]
  {
  }

  /** The first names of `SPMMAT2`'s bound methods are in increasing order. */
  lemma Spm2LowSorted(ms: seq<Member>)
    requires ms == [Member("__init__", Init), RuleMember(ContrastsRule), RuleMember(Des), RuleMember(Descrip),
        RuleMember(Nscan), RuleMember(Spmid), RuleMember(Swd),
        Member("get_image", GetImageMethod), Member("read_all", ReadAllMethod)]
    ensures forall i :: 0 <= i < 4 ==> LexLess(ms[i].name, ms[i + 1].name)
  {
    forall i | 0 <= i < 4 ensures LexLess(ms[i].name, ms[i + 1].name) {
      if i == 0 {
        AdjacentLess(ms, i, Member("__init__", Init), RuleMember(ContrastsRule), 1);
      } else if i == 1 {
        AdjacentLess(ms, i, RuleMember(ContrastsRule), RuleMember(Des), 6);
      } else if i == 2 {
        AdjacentLess(ms, i, RuleMember(Des), RuleMember(Descrip), 9);
      } else {
        AdjacentLess(ms, i, RuleMember(Descrip), RuleMember(Nscan), 6);
      }
    }
  }

  /** The last names of `SPMMAT2`'s bound methods are in increasing order. */
  lemma Spm2HighSorted(ms: seq<Member>)
    requires ms == [Member("__init__", Init), RuleMember(ContrastsRule), RuleMember(Des), RuleMember(Descrip),
        RuleMember(Nscan), RuleMember(Spmid), RuleMember(Swd),
        Member("get_image", GetImageMethod), Member("read_all", ReadAllMethod)]
    ensures forall i :: 4 <= i < 8 ==> LexLess(ms[i].name, ms[i + 1].name)
  {
    forall i | 4 <= i < 8 ensures LexLess(ms[i].name, ms[i + 1].name) {
      if i == 4 {
        AdjacentLess(ms, i, RuleMember(Nscan), RuleMember(Spmid), 6);
      } else if i == 5 {
        AdjacentLess(ms, i, RuleMember(Spmid), RuleMember(Swd), 7);
      } else if i == 6 {
        AdjacentLess(ms, i, RuleMember(Swd), Member("get_image", GetImageMethod), 0);
      } else {
        AdjacentLess(ms, i, Member("get_image", GetImageMethod), Member("read_all", ReadAllMethod), 0);
      }
    }
  }

  /** The bound methods of `SPMMAT2` are listed in increasing name order. */
  lemma Spm2MembersSorted()
    ensures NamesSorted(Members(Spm2))
  {
    Spm2MemberList();
    Spm2LowSorted(Members(Spm2));
    Spm2HighSorted(Members(Spm2));
  }

  /** The member list of `SPMMAT2` holds exactly its bound methods. */
  lemma Spm2MembersDeclared()
    ensures forall m :: m in Members(Spm2) <==> m in Declared(Spm2)
  {
    Spm2MemberList();
  }

  /** `[m for m in methods if m[0].startswith('_read')]`. */
  function RuleMembers(ms: seq<Member>): (r: seq<Member>)
    ensures forall i :: 0 <= i < |r| ==> StartsWith(r[i].name, "_read")
    ensures forall m :: m in r <==> m in ms && StartsWith(m.name, "_read")
    decreases |ms|
  {
    if ms == [] then []
    else if StartsWith(ms[0].name, "_read") then [ms[0]] + RuleMembers(ms[1..])
    else RuleMembers(ms[1..])
  }

  /** The filter keeps the order of its input and splits over a
      concatenation. */
  lemma {:induction false} RuleMembersAppend(a: seq<Member>, b: seq<Member>)
    ensures RuleMembers(a + b) == RuleMembers(a) + RuleMembers(b)
    decreases |a|
  {
    if a != [] {
      assert (a + b)[0] == a[0];
      assert (a + b)[1..] == a[1..] + b;
      RuleMembersAppend(a[1..], b);
    } else {
      assert a + b == b;
    }
  }

  /** A list of members whose names all start with `_read` passes the
      filter unchanged. */
  lemma {:induction false} RuleMembersKeepsAll(ms: seq<Member>)
    requires forall i :: 0 <= i < |ms| ==> StartsWith(ms[i].name, "_read")
    ensures RuleMembers(ms) == ms
    decreases |ms|
  {
    if ms != [] {
      RuleMembersKeepsAll(ms[1..]);
      assert [ms[0]] + ms[1..] == ms;
    }
  }

  /** The members that are not rules do not pass the filter. */
  lemma NonRulesFiltered()
    ensures RuleMembers([Member("__init__", Init)]) == []
    ensures RuleMembers([Member("get_image", GetImageMethod), Member("read_all", ReadAllMethod)]) == []
  {
    var tail := [Member("get_image", GetImageMethod), Member("read_all", ReadAllMethod)];
    assert "__init__"[..5][1] != "_read"[1];
    assert !StartsWith("get_image", "_read");
    assert !StartsWith("read_all", "_read");
    assert tail[1..] == [Member("read_all", ReadAllMethod)];
  }

  /** The `_read` members of each subclass, in the order `read_all` applies
      them, are exactly its rules. */
  lemma RuleMembersOf(variant: Variant)
    ensures RuleMembers(Members(variant)) == RuleMembersFor(RuleOrder(variant))
  {
    var init := [Member("__init__", Init)];
    var rules := RuleMembersFor(RuleOrder(variant));
    var tail := [Member("get_image", GetImageMethod), Member("read_all", ReadAllMethod)];
    assert Members(variant) == init + rules + tail;
    RuleMembersAppend(init + rules, tail);
    RuleMembersAppend(init, rules);
    NonRulesFiltered();
    forall i | 0 <= i < |rules| ensures StartsWith(rules[i].name, "_read") {
      MethodNameSplit(RuleOrder(variant)[i]);
      assert ("_read_" + Suffix(RuleOrder(variant)[i]))[..5] == "_read";
    }
    RuleMembersKeepsAll(rules);
    assert [] + rules + [] == rules;
  }

  /** The first two statements of `read_all`: the object's bound methods,
      sorted by name, filtered to those whose name starts with `_read`.
      These are the object's rules, in name order. */
  method RuleMethods(variant: Variant) returns (r: seq<Member>)
    ensures |r| == |RuleOrder(variant)|
    ensures forall i :: 0 <= i < |r| ==> r[i] == RuleMember(RuleOrder(variant)[i])
  {
    var methods := Members(variant);
    r := RuleMembers(methods);
    RuleMembersOf(variant);
  }

  /** `re.sub('_read_', '', name)`: the dictionary key of a rule's value. */
  function KeyOf(name: string): string
  {
    RemoveAll(name, "_read_")
  }

  /** A rule's key is its method name without the `_read_` prefix. */
  lemma KeyOfRule(id: RuleId)
    ensures KeyOf(RuleMember(id).name) == Suffix(id)
  {
    var x := Suffix(id);
    MethodNameSplit(id);
    forall i ensures !OccursAt(x, "_read_", i) {
      if 0 <= i && i + 6 <= |x| {
        assert x[i..i + 6][0] == x[i];
      }
    }
    RemoveAllPrefix("_read_", x);
  }

  /** What a rule returns: a dictionary (merged into the result) or any
      other value (stored under the rule's key). */
  datatype RuleOut = Single(item: Item) | Batch(fields: Entry)

  function Lift(r: Result<Item>): (o: Result<RuleOut>)
    ensures o.Ok? <==> r.Ok?
    ensures r.Ok? ==> o == Ok(Single(r.value))
  {
    match r
    case Err(e) => Err(e)
    case Ok(x) => Ok(Single(x))
  }

  /** Calling the rule on the object.  Only `_read_design` returns a
      dictionary. */
  function ApplySpec(spm: Spm, load: Loader, id: RuleId): (r: Result<RuleOut>)
    ensures r.Ok? ==> (r.value.Batch? <==> id == Design)
  {
    match id
    case Nscan => Lift(ReadNscan(spm.mat))
    case Spmid => Lift(ReadFlat(spm.mat, SpmidPath))
    case Swd => Lift(ReadFlat(spm.mat, SwdPath))
    case Descrip => Lift(ReadFlat(spm.mat, DescripPath))
    case Autocorr => Lift(ReadFlat(spm.mat, AutocorrPath))
    case Des => Lift(ReadFlat(spm.mat, DesPath))
    case Motreg =>
      (match MotregSpec(spm.mat)
       case Err(e) => Err(e)
       case Ok(b) => Ok(Single(Flag(b))))
    case Design =>
      (match ReadDesign(spm.mat)
       case Err(e) => Err(e)
       case Ok(d) => Ok(Batch(d)))
    case ContrastsRule =>
      (match ContrastsSpec(spm, load)
       case Err(e) => Err(e)
       case Ok(cs) => Ok(Single(Contrasts(cs))))
  }

  /** `method[1]()`: runs the rule, using the looping implementations of
      motreg and contrasts. */
  method Apply(spm: Spm, load: Loader, id: RuleId) returns (r: Result<RuleOut>)
    ensures r == ApplySpec(spm, load, id)
  {
    match id {
      case Motreg =>
        var b := ReadMotreg(spm.mat);
        r := if b.Err? then Err(b.error) else Ok(Single(Flag(b.value)));
      case ContrastsRule =>
        var cs := ReadContrasts(spm, load);
        r := if cs.Err? then Err(cs.error) else Ok(Single(Contrasts(cs.value)));
      case _ =>
        r := ApplySpec(spm, load, id);
    }
  }

  /** The keys a rule's value occupies in the result. */
  function OutKeys(name: string, out: RuleOut): set<string>
  {
    match out
    case Single(_) => {KeyOf(name)}
    case Batch(d) => d.Keys
  }

  /** Merging one rule's value: `result.update(value)` for a dictionary,
      `result[key] = value` otherwise. */
  function Merge(acc: Entry, name: string, out: RuleOut): (r: Entry)
    ensures r.Keys == acc.Keys + OutKeys(name, out)
    ensures forall k :: k in acc && k !in OutKeys(name, out) ==> r[k] == acc[k]
    ensures out.Single? ==> r[KeyOf(name)] == out.item
    ensures out.Batch? ==> forall k :: k in out.fields ==> r[k] == out.fields[k]
  {
    match out
    case Batch(d) => acc + d
    case Single(x) => acc[KeyOf(name) := x]
  }

  /** Applying the rules `ids` in order to a partly filled result, stopping
      at the first rule that raises. */
  function Run(spm: Spm, load: Loader, ids: seq<RuleId>, acc: Entry): Result<Entry>
    decreases |ids|
  {
    if ids == [] then Ok(acc)
    else
      match ApplySpec(spm, load, ids[0])
      case Err(e) => Err(e)
      case Ok(out) => Run(spm, load, ids[1..], Merge(acc, RuleMember(ids[0]).name, out))
  }

  /** `read_all` as a function of the object: its rules applied in name
      order (`RuleMembersOf` shows these are the members the `_read` filter
      keeps). */
  function ReadAllSpec(spm: Spm, load: Loader): Result<Entry>
  {
    Run(spm, load, RuleOrder(spm.variant), map[])
  }

  /** `read_all`: filters the members to the rules and applies them in
      order, merging each value into the result. */
  method ReadAll(spm: Spm, load: Loader) returns (r: Result<Entry>)
    ensures r == ReadAllSpec(spm, load)
  {
    var methods := RuleMethods(spm.variant);
    ghost var ids := RuleOrder(spm.variant);
    var result: Entry := map[];
    for i := 0 to |methods|
      invariant Run(spm, load, ids, map[]) == Run(spm, load, ids[i..], result)
    {
      var m := methods[i];
      assert m == RuleMember(ids[i]);
      var value := Apply(spm, load, m.body.id);
      RunAt(spm, load, ids, i, result);
      if value.Err? {
        return Err(value.error);
      }
      match value.value {
        case Batch(d) =>
          result := result + d;
        case Single(x) =>
          var key := KeyOf(m.name);
          result := result[key := x];
      }
    }
    return Ok(result);
  }

  /** Proof step, unfolding `Run` once: the run from rule `i` on applies
      rule `i` first. */
  lemma RunAt(spm: Spm, load: Loader, ids: seq<RuleId>, i: nat, acc: Entry)
    requires i < |ids|
    ensures ApplySpec(spm, load, ids[i]).Err? ==>
      Run(spm, load, ids[i..], acc) == Err(ApplySpec(spm, load, ids[i]).error)
    ensures ApplySpec(spm, load, ids[i]).Ok? ==>
      Run(spm, load, ids[i..], acc) ==
      Run(spm, load, ids[i + 1..], Merge(acc, RuleMember(ids[i]).name, ApplySpec(spm, load, ids[i]).value))
  {
    assert ids[i..][0] == ids[i];
    assert ids[i..][1..] == ids[i + 1..];
  }

  /** Every rule in `ids` succeeds on the object. */
  predicate AllOk(spm: Spm, load: Loader, ids: seq<RuleId>)
    decreases |ids|
  {
    ids == [] || (ApplySpec(spm, load, ids[0]).Ok? && AllOk(spm, load, ids[1..]))
  }

  /** The run succeeds iff every rule in it succeeds, whatever the
      dictionary it starts from. */
  lemma {:induction false} RunOk(spm: Spm, load: Loader, ids: seq<RuleId>, acc: Entry)
    ensures Run(spm, load, ids, acc).Ok? <==> AllOk(spm, load, ids)
    decreases |ids|
  {
    if ids != [] {
      var a := ApplySpec(spm, load, ids[0]);
      if a.Ok? {
        RunOk(spm, load, ids[1..], Merge(acc, RuleMember(ids[0]).name, a.value));
      }
    }
  }

  /** `AllOk` holds iff no rule in the list fails. */
  lemma {:induction false} AllOkIff(spm: Spm, load: Loader, ids: seq<RuleId>)
    ensures AllOk(spm, load, ids) <==> forall i :: 0 <= i < |ids| ==> ApplySpec(spm, load, ids[i]).Ok?
    decreases |ids|
  {
    if ids != [] {
      AllOkIff(spm, load, ids[1..]);
      assert forall i :: 1 <= i < |ids| ==> ids[i] == ids[1..][i - 1];
    }
  }

  /** `read_all` succeeds iff every rule of the object's subclass does. */
  lemma ReadAllOk(spm: Spm, load: Loader)
    ensures ReadAllSpec(spm, load).Ok? <==> AllOk(spm, load, RuleOrder(spm.variant))
  {
    RunOk(spm, load, RuleOrder(spm.variant), map[]);
  }

  /** A failed run reports the error of the first rule that fails. */
  lemma {:induction false} RunFirstError(spm: Spm, load: Loader, ids: seq<RuleId>, acc: Entry)
    requires Run(spm, load, ids, acc).Err?
    ensures exists i :: (0 <= i < |ids|
      && (forall j :: 0 <= j < i ==> ApplySpec(spm, load, ids[j]).Ok?)
      && ApplySpec(spm, load, ids[i]) == Err(Run(spm, load, ids, acc).error))
    decreases |ids|
  {
    var a := ApplySpec(spm, load, ids[0]);
    if a.Err? {
      assert ApplySpec(spm, load, ids[0]) == Err(Run(spm, load, ids, acc).error);
    } else {
      var rest := ids[1..];
      var next := Merge(acc, RuleMember(ids[0]).name, a.value);
      RunFirstError(spm, load, rest, next);
      var i :| 0 <= i < |rest|
        && (forall j :: 0 <= j < i ==> ApplySpec(spm, load, rest[j]).Ok?)
        && ApplySpec(spm, load, rest[i]) == Err(Run(spm, load, rest, next).error);
      assert ids[i + 1] == rest[i];
      assert forall j :: 1 <= j < i + 1 ==> ids[j] == rest[j - 1];
    }
  }

  /** A rule whose value is not a dictionary stores it under its key. */
  lemma RunSingle(spm: Spm, load: Loader, id: RuleId, rest: seq<RuleId>, acc: Entry, x: Item)
    requires ApplySpec(spm, load, id) == Ok(Single(x))
    ensures Run(spm, load, [id] + rest, acc) == Run(spm, load, rest, acc[Suffix(id) := x])
  {
    KeyOfRule(id);
    assert ([id] + rest)[1..] == rest;
  }

  /** A rule whose value is a dictionary merges it into the result. */
  lemma RunBatch(spm: Spm, load: Loader, id: RuleId, rest: seq<RuleId>, acc: Entry, d: Entry)
    requires ApplySpec(spm, load, id) == Ok(Batch(d))
    ensures Run(spm, load, [id] + rest, acc) == Run(spm, load, rest, acc + d)
  {
    assert ([id] + rest)[1..] == rest;
  }

  /** Proof step, unfolding `AllOk` once: a rule followed by more rules. */
  lemma AllOkCons(spm: Spm, load: Loader, id: RuleId, rest: seq<RuleId>)
    ensures AllOk(spm, load, [id] + rest) <==> ApplySpec(spm, load, id).Ok? && AllOk(spm, load, rest)
  {
    assert ([id] + rest)[1..] == rest;
  }
}
