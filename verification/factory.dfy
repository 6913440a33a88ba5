/** `spm_factory`: picks the reader class for a decoded SPM.mat file. */
module Factory {
  import opened Values
  import opened Text
  import opened Rules

  /** `_mat['SPM'][0,0]`: the SPM struct of the decoded file, which must
      have named fields for the class choice to be made. */
  function SpmStruct(vars: map<string, Value>): (r: Result<Value>)
    ensures r.Ok? <==> ("SPM" in vars && Walk(vars["SPM"], [At(0), At(0)]).Ok?
      && Walk(vars["SPM"], [At(0), At(0)]).value.Rec?)
    ensures r.Ok? ==> r.value == Walk(vars["SPM"], [At(0), At(0)]).value
    ensures "SPM" !in vars ==> r == Err(NoSpmVariable)
  {
    if "SPM" !in vars then Err(NoSpmVariable)
    else
      match Walk(vars["SPM"], [At(0), At(0)])
      case Err(e) => Err(e)
      case Ok(mat) => if mat.Rec? then Ok(mat) else Err(NotAStruct)
  }

  /** `spm_factory(fname)`, with the result of `loadmat(fname)` given as
      `loaded`: an `SPMMAT1` when the SPM struct has a `Sess` field (the
      SPM99 layout), an `SPMMAT2` otherwise, both holding the directory of
      the file. */
  function SpmFactory(fname: string, loaded: Result<map<string, Value>>): (r: Result<Spm>)
    ensures loaded.Err? ==> r == Err(loaded.error)
    ensures loaded.Ok? ==> (r.Ok? <==> SpmStruct(loaded.value).Ok?)
    ensures r.Ok? ==> r.value.path == DirName(fname) && r.value.mat == SpmStruct(loaded.value).value
    ensures r.Ok? ==> (r.value.variant == Spm1 <==> "Sess" in r.value.mat.fields)
  {
    match loaded
    case Err(e) => Err(e)
    case Ok(vars) =>
      match SpmStruct(vars)
      case Err(e) => Err(e)
      case Ok(mat) => Ok(Spm(if "Sess" in mat.fields then Spm1 else Spm2, DirName(fname), mat))
  }

  /** A file without an `SPM` variable is refused with the explicit
      "Bad SPM.mat" exception. */
  lemma NoSpmRefused(fname: string, vars: map<string, Value>)
    requires "SPM" !in vars
    ensures SpmFactory(fname, Ok(vars)) == Err(NoSpmVariable)
  {
  }

  /** The decoded form of a file `d/b` holding the struct `fields` as its
      `SPM` variable (a 1x1 struct array), among other variables, is read
      back as the object of the class the fields call for, rooted at `d`. */
  lemma FactoryRoundTrip(d: string, b: string, vars: map<string, Value>, fields: map<string, Value>)
    requires d != [] && d[|d| - 1] != '/'
    requires forall i :: 0 <= i < |b| ==> b[i] != '/'
    ensures SpmFactory(d + "/" + b, Ok(vars["SPM" := Arr([Arr([Rec(fields)])])])) ==
      Ok(Spm(if "Sess" in fields then Spm1 else Spm2, d, Rec(fields)))
  {
    DirNameJoin(d, b);
    var spm := Arr([Arr([Rec(fields)])]);
    assert Walk(spm, [At(0), At(0)]) == Ok(Rec(fields)) by {
      assert [At(0), At(0)][1..] == [At(0)];
      assert [At(0)][1..] == [];
    }
  }

  /** A file name without a directory part yields the empty path. */
  lemma FactoryBareName(fname: string, vars: map<string, Value>)
    requires forall i :: 0 <= i < |fname| ==> fname[i] != '/'
    requires SpmFactory(fname, Ok(vars)).Ok?
    ensures SpmFactory(fname, Ok(vars)).value.path == ""
  {
    DirNameNoSlash(fname);
  }
}
