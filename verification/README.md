# spmread record extraction, modelled in Dafny

`spmread.py` reads a decoded SPM.mat file. This is the MATLAB structure that
SPM (Statistical Parametric Mapping) saves after fitting a brain-imaging
model. The file turns that structure into one flat dictionary of named
fields. This project models that extraction engine and proves what it
computes. It covers:

- the flattener `flatten_gen` / `flatten` and its `one_or_list` collapse;
- the class choice of `spm_factory`;
- the rule loop `read_all`;
- the field rules of `SPMMAT`, `SPMMAT1` and `SPMMAT2`;
- the image linker `get_image`.

Modules, one per file:

- `Values` (values.dfy): the decoded MATLAB data (`Value`), the items the record holds (`Item`), the errors the reader raises, and field access, indexing and `len` on decoded data.
- `Flatten` (flatten.dfy): `flatten_gen`, `one_or_list` and `flatten`, with their laws.
- `Text` (text.dfy): the string operations the rules use, each written for its specific pattern:
  - the `re.sub` that strips annotations in braces;
  - the `re.sub` that strips the `cutoff:` label;
  - the case-insensitive `re.search` for motion parameters;
  - `lower()`;
  - the `_read_` removal;
  - Python's string order;
  - `os.path.split`.
- `Rules` (rules.dfy): every `_read_*` rule and `get_image`.
  - `_read_motreg` and `_read_contrasts` are methods with the source's loops. Each is proved equal to a specification function.
  - `get_image` updates a `Contrast` object in place.
- `Reader` (reader.dfy): `read_all`.
  - The member table stands in for `inspect.getmembers`. It is proved sorted by name, and the `_read` filter is proved to keep exactly the rules.
  - The loop is proved equal to a recursive specification `Run`.
- `Outputs` (outputs.dfy): the whole record `read_all` returns for each subclass, and exactly when it raises.
- `Factory` (factory.dfy): `spm_factory` as a function of the file name and the decoded file.

Python exceptions are modelled as `Err` values of a `Result`. On the data
layouts the rules navigate (records, arrays of records, nested arrays,
strings and numbers), each rule fails at the same step, and in the same
order, as the source. The places where NumPy or Python would accept or
refuse a value the model treats differently are listed under "## Left out".

## Model

| member | source | states |
|---|---|---|
| Values.Field | spmread.py:114 | `v[name]` on a record is the named field, and fails iff the field is missing. On an array it succeeds iff every element has the field, and then element `i` of the result is the field of element `i`: the field projected over the array, keeping its length. On a string or number it fails. |
| Values.FieldOfAll | spmread.py:114 | The field projection over the elements of a struct array: it succeeds iff every element has the field, and then keeps the length and holds element `i`'s field at `i`. `Values.Field` uses it for arrays. |
| Values.Index | spmread.py:114 | `v[i]` succeeds iff `v` is an array longer than `i`, and then returns element `i`. |
| Values.Len | spmread.py:175 | `len(v)` succeeds iff `v` is an array, and then returns its number of elements. |
| Values.Walk | spmread.py:114 | A chained subscript such as `mat['xY'][0][0]['VY'][0]['descrip']`, and likewise at spmread.py:120, 129, 167 and 185-190: each field access or index is applied in turn, and the first that raises is the error. `Values.WalkAppend` gives its meaning. |
| Values.WalkAppend | spmread.py:114 | Following a chained access `p + q` is following `p` and then `q` from where `p` ended; a failure in `p` is the failure of the whole chain. |
| Flatten.Leaves | spmread.py:45-54 | `flatten_gen` yields no arrays. A non-array value yields exactly itself. |
| Flatten.LeavesOfAppend | spmread.py:49-52 | The leaves of a concatenation of elements are the concatenation of their leaves, so order is kept. |
| Flatten.LeavesOfElement | spmread.py:49-52 | Element `k`'s leaves sit between the leaves of the elements before it and those after it: depth first, left to right. |
| Flatten.LeavesWrap | spmread.py:45-54 | Wrapping a value in any number of one-element arrays does not change its leaves. |
| Flatten.LeavesIdempotent | spmread.py:45-54 | A sequence of non-array values is its own list of leaves. |
| Flatten.OneOrList | spmread.py:11-19 | The decorator returns the sole element iff the list has exactly one. Otherwise it returns the whole list unchanged. |
| Flatten.Flat | spmread.py:56-59 | `flatten` returns a single value or a list, and a non-array value flattens to itself. |
| Flatten.FlatWrap | spmread.py:56-59 | `flatten` does not see how many one-element arrays wrap a value. |
| Flatten.FlatWrappedLeaf | spmread.py:56-59 | A non-array value wrapped to any depth flattens to itself. |
| Flatten.FlatOfLeaves | spmread.py:11-19 | An array of leaves flattens to its one element when it has one. Otherwise it flattens to the whole list, neither truncated nor reordered. |
| Flatten.FlatIdempotent | spmread.py:56-59 | A list returned by `flatten`, flattened again as an array, comes back unchanged. |
| Text.LowerChar | spmread.py:156 | An upper-case letter becomes the letter 32 code points above it, its lower-case form. Every other character is unchanged, and no result is upper-case. |
| Text.ToLower | spmread.py:156 | `lower()` keeps the length and lower-cases each character in place. |
| Text.ToLowerProperties | spmread.py:156 | `lower()` leaves no upper-case letter, changes nothing else, and is idempotent. |
| Text.ContainsCI | spmread.py:133 | `re.search(p, s, re.I)` for a literal lower-case pattern. A match needs `s` at least as long as `p`. Its meaning is given by `Text.ContainsCIIff`. |
| Text.ContainsCIIff | spmread.py:133 | The left-to-right scan of `re.search(p, s, re.I)` succeeds iff some window of `s` lower-cases to `p`. |
| Text.NotContainsCI | spmread.py:133 | A pattern whose first two letters never stand side by side in `s`, ignoring case, is not found. |
| Text.ContainsCIShort | spmread.py:133 | A string shorter than the pattern never matches it. |
| Text.SpaceEnd | spmread.py:150 | The `\s*` run ends at the first non-whitespace character and covers only whitespace. |
| Text.CloseBrace | spmread.py:150 | The non-greedy `.*?}` ends at the first `}`, with no `}` or newline before it. It finds nothing exactly when every `}` has a newline before it. |
| Text.AnnotationAt | spmread.py:150 | A match of `\s*{.*?}` is at least two characters long and lies inside the text. |
| Text.AnnotationAtStart | spmread.py:150 | Whitespace, `{`, a body without `}` or newline, and `}` form one whole match. |
| Text.NoAnnotationAt | spmread.py:150 | No match starts at brace-free text that does not end in whitespace. |
| Text.StripAnnotations | spmread.py:150-153 | `re.sub('\s*{.*?}', '', s)`: never longer than its input. `Text.StripAnnotationsRemoves`, `Text.StripAnnotationsPrefix` and `Text.StripAnnotationsNoBrace` say what it removes and what it keeps. |
| Text.StripAnnotationsNoBrace | spmread.py:150 | Text without `{` is left unchanged by the annotation substitution. |
| Text.StripAnnotationsAtStart | spmread.py:150 | A leading annotation is removed with its whitespace, and substitution goes on after it. |
| Text.StripAnnotationsPrefix | spmread.py:150 | Brace-free text that does not end in whitespace is kept whole in front of what the substitution makes of the rest. |
| Text.StripAnnotationsRemoves | spmread.py:150 | `p + w{body} + q` becomes `p` followed by the substituted `q`. The annotation goes together with its leading whitespace. |
| Text.RemoveCutoffNoLabel | spmread.py:154 | Text with no `cutoff:` label in any letter case is left unchanged. |
| Text.RemoveCutoff | spmread.py:154 | `re.sub('cutoff:\s*', '', s, flags=re.I)`: never longer than its input. `Text.RemoveCutoffRemoves`, `Text.RemoveCutoffPrefix` and `Text.RemoveCutoffNoLabel` say what it removes and what it keeps. |
| Text.RemoveCutoffLeading | spmread.py:154 | A leading label, in any letter case, goes together with the whitespace after it. |
| Text.RemoveCutoffPrefix | spmread.py:154 | Text in which no label starts is kept whole in front of what the substitution makes of the rest. |
| Text.RemoveCutoffRemoves | spmread.py:154 | `p + label + whitespace + q` becomes `p` followed by the substituted `q`, for a label in any letter case after text in which no label starts. Every occurrence is removed, not only a leading one. |
| Text.RemoveAllAbsent | spmread.py:83 | `re.sub('_read_', '', s)` leaves text without `_read_` unchanged. |
| Text.RemoveAll | spmread.py:83 | `re.sub('_read_', '', s)`: never longer than its input. Its meaning is given by `Text.RemoveAllAbsent` and `Text.RemoveAllPrefix`. |
| Text.RemoveAllPrefix | spmread.py:83 | A `_read_` prefix in front of text without `_read_` is removed, leaving exactly the text. |
| Text.LexLess | spmread.py:71 | Python's string order, by code point. No string is less than itself. |
| Text.LexLessAsymmetric | spmread.py:71 | No two strings are each less than the other. |
| Text.LexLessAt | spmread.py:71 | Strings that agree up to a position are ordered by the characters there, and a proper prefix sorts first. This is the order of `getmembers`. |
| Text.LastSlash | spmread.py:24 | The index of the last `/`: no `/` comes after it. |
| Text.DirNameNoSlash | spmread.py:24 | `os.path.split(p)[0]` is empty for a name without `/`. |
| Text.DirNameJoin | spmread.py:24 | The directory part of `d/b` is `d`. |
| Text.StripTrailingSlashes | spmread.py:24 | The head with exactly its trailing slashes removed: a prefix of the head, not ending in `/`, and everything cut off is `/`. |
| Text.DirName | spmread.py:24 | `os.path.split(p)[0]` is a prefix of `p`. Its value is given by `Text.DirNameJoin`, `Text.DirNameJoinSlashes` and `Text.DirNameNoSlash`. |
| Text.DirNameJoinSlashes | spmread.py:24 | The head of `d` followed by any run of slashes and a file name `b` is `d`, as for `/data//SPM.mat`. |
| Rules.ReadFlat | spmread.py:104-110 | A flattening rule succeeds iff its field access succeeds, and returns `flatten` of the field reached. `Flatten.FlatWrap`, `Flatten.FlatWrappedLeaf` and `Flatten.FlatOfLeaves` say what that value is. |
| Rules.ReadFlatWrapped | spmread.py:104-110 | A field holding one non-array value, wrapped to any depth, reads as that value. |
| Rules.ReadNscan | spmread.py:97-102 | `_read_nscan` succeeds iff `nscan` exists and has at least one leaf, and returns the first leaf. When the field flattens to a single value, that value is the first leaf. |
| Rules.NscanFirstSession | spmread.py:97-102 | A multi-session count `[[n1, n2, ...]]` reads as `n1`. |
| Rules.Iterate | spmread.py:131 | A list iterates over its elements. A string iterates over its characters, each a one-character string. Any other single value, such as a number, is not iterable. |
| Rules.ReadMotreg | spmread.py:122-135 | The nested loops with early return compute `MotregSpec`: the access error, the iteration error, the first non-string regressor, or whether a regressor matches. |
| Rules.PatternsMotion | spmread.py:124-133 | A name matches some pattern in the list iff it mentions pitch, roll or yaw. |
| Rules.MotregOf | spmread.py:131-135 | The outcome of the nested search. Any error is the non-string error. A false answer means every regressor is a string and none is a motion name. `Rules.MotregOfStrings` gives the converse. |
| Rules.MotregSpec | spmread.py:122-135 | `_read_motreg` as a function: read the names, iterate them, search. `Rules.ReadMotreg` is proved equal to it, and `Rules.MotregOfStrings` and `Rules.MotregSingleName` say what it returns. |
| Rules.MotregOfAt | spmread.py:131-134 | One outer iteration: a non-string raises, a motion name returns true, any other name moves on to the next regressor. |
| Rules.MotregOfStrings | spmread.py:131-135 | On string regressors the answer is true iff some regressor mentions pitch, roll or yaw in any letter case. |
| Rules.MotregOfStopsAtMatch | spmread.py:131-134 | The search returns at the first match and never looks at what follows, even a non-string. |
| Rules.MotregSingleName | spmread.py:130-133 | With a single regressor name, `flatten` returns the bare string and the loop walks its characters, so the answer is false whatever the name. |
| Rules.NotMotionName | spmread.py:133 | A name containing none of `pi`, `ro`, `ya`, ignoring case, mentions no motion parameter. |
| Rules.MotregExamplePitch | spmread.py:122-135 | `pitch_1, x_trans` has motion regressors. |
| Rules.MotregExampleTranslations | spmread.py:122-135 | `x_trans, y_trans` has none. |
| Rules.TranslationNotMotion | spmread.py:133 | None of `x_trans`, `y_trans`, `z_trans` is a motion name. |
| Rules.MotregOfNeither | spmread.py:131-135 | Two string regressors, neither a motion name, give false. |
| Rules.MotregExampleUpperCase | spmread.py:133 | `ROLL_2` matches because case is ignored. |
| Rules.ItemField | spmread.py:145 | Indexing the flattened `xsDes` by a name succeeds on a single record iff the field exists, and returns that field's value. On a list it raises. |
| Rules.AsString | spmread.py:150 | The substitutions and `lower()` accept exactly a single string. |
| Rules.DesignItem | spmread.py:145 | `flatten(_xsdes[name])`: a field of the flattened `xsDes` record, flattened. Its behaviour on records and lists is given by `Rules.ItemField`. |
| Rules.DesignText | spmread.py:149-156 | A flattened `xsDes` field that must be a single string before `re.sub` or `lower()` can use it. `Rules.AsString` gives what passes. |
| Rules.ReadDesignRaw | spmread.py:141-156 | The six reads of `_read_design`, in the source's order, stopping at the first that raises. `Rules.ReadDesign` succeeds iff it does and states the values. |
| Rules.CleanHpf | spmread.py:153-154 | The two `hpf` substitutions in the source's order: annotations first, then the `cutoff:` label. `Text.StripAnnotationsRemoves`, `Text.RemoveCutoffRemoves`, `Rules.HpfExample` and `Rules.HpfOrderMatters` give its meaning. |
| Rules.ReadDesign | spmread.py:138-161 | `_read_design` has exactly the keys basis, nsess, rt, hpf and norm, and fails iff one of its reads fails. Values: basis and nsess are flattened as read; rt has its annotations removed; hpf has its annotations and then its label removed; norm is lower-cased. |
| Rules.RtExample | spmread.py:149-150 | `2.5 {TR}` becomes `2.5`. |
| Rules.CutoffLabelExample | spmread.py:154 | `Cutoff: 128` becomes `128`. |
| Rules.HpfAnnotationExample | spmread.py:153 | `Cutoff: 128 {seconds}` loses its annotation. |
| Rules.HpfExample | spmread.py:152-154 | `Cutoff: 128 {seconds}` becomes `128`. |
| Rules.StripInsideLabelExample | spmread.py:153 | Removing the annotation from `cutoff{x}:5` leaves `cutoff:5`. |
| Rules.NoLabelExample | spmread.py:154 | `cutoff{x}:5` holds no label. |
| Rules.CutoffFiveExample | spmread.py:154 | `cutoff:5` becomes `5`. |
| Rules.HpfOrderMatters | spmread.py:152-154 | The two hpf substitutions do not commute. The order the source uses gives `5` for `cutoff{x}:5`; the other order gives `cutoff:5`. |
| Rules.ReadFields | spmread.py:184-191 | The flattened value at each path, stored under its name, read from left to right and failing at the first read that raises. `Rules.ReadFieldsKeys` gives its keys. |
| Rules.ContrastPaths | spmread.py:184-191 | Where each of the six fields of contrast `i` is read from in `xCon`. `Rules.ContrastAtKeys` shows the names are the six keys of the literal. |
| Rules.ContrastAt | spmread.py:184-191 | The dictionary literal for contrast `i`. `Rules.ContrastAtKeys` gives its keys, and `Rules.ContrastEntriesShape` shows that entry `i` of the result is this dictionary, linked. |
| Rules.ReadFieldsKeys | spmread.py:184-191 | A dictionary read from named paths has exactly those names as keys. |
| Rules.ContrastAtKeys | spmread.py:184-191 | A contrast read from `xCon` has exactly the keys name, stat, eidf, con_file, spm_file and descrip. |
| Rules.Link | spmread.py:89-95 | `get_image` adds `<key>_image` holding the handle iff the key is present and the load succeeds. Otherwise the dictionary is unchanged and nothing is raised. |
| Rules.LinkedKeys | spmread.py:193-195 | Linking both images keeps the six fields and their values, and adds only `con_file_image` and `spm_file_image`, each iff its image loads. |
| Rules.Linked | spmread.py:194-195 | The two `get_image` calls, `con_file` first and then `spm_file`. `Rules.LinkedKeys` gives its meaning. |
| Rules.ContrastsUpTo | spmread.py:181-198 | A successful read of the first `n` contrasts has exactly `n` entries. |
| Rules.ContrastCount | spmread.py:175 | `len(xcon['name'][0])`, failing if the access raises or the value has no length. `Rules.ContrastsSpec` shows that a successful read has exactly this many entries. |
| Rules.ContrastsSpec | spmread.py:169-201 | A successful read has exactly `len(xcon['name'][0])` entries. `Rules.ContrastEntriesShape` says what each entry holds. |
| Rules.ContrastsUpToErr | spmread.py:181-198 | Once a contrast fails, the read of every longer prefix fails with the same error. |
| Rules.ContrastsUpToOk | spmread.py:181-198 | When every contrast can be read, the list can be. |
| Rules.ContrastsUpToFails | spmread.py:181-198 | A contrast that cannot be read makes the whole list fail. |
| Rules.ContrastsUpToEntries | spmread.py:181-198 | Entry `i` is contrast `i`'s six fields, linked, in index order. |
| Rules.ContrastEntriesShape | spmread.py:169-201 | Each entry `_read_contrasts` returns is contrast `i` linked. It holds the six fields, plus each image key iff that image loads. |
| Rules.Contrast.constructor | spmread.py:184-191 | A new contrast dictionary holds the given fields. |
| Rules.GetImage | spmread.py:89-95 | The in-place update leaves the dictionary as `Link` of its old contents. |
| Rules.ReadContrasts | spmread.py:169-201 | The loop that builds, links and appends each contrast computes `ContrastsSpec`: `len(xcon['name'][0])` entries in index order, or the first error. |
| Reader.MethodNameSplit | spmread.py:97-169 | Every rule's method name is `_read_` followed by its key. |
| Reader.RuleOrder | spmread.py:71 | The rules of each subclass, in name order. `Reader.RuleMembersOf` shows they are what the `_read` filter keeps from `Reader.Members`. |
| Reader.Members | spmread.py:71 | The bound methods `inspect.getmembers` lists for each subclass. `Reader.Spm1MembersSorted`, `Reader.Spm2MembersSorted` and the two `Declared` lemmas say the list is sorted and complete. |
| Reader.Spm1MembersSorted | spmread.py:71 | The member table of `SPMMAT1` is in strictly increasing name order, as `inspect.getmembers` lists it. |
| Reader.Spm1MembersDeclared | spmread.py:71 | The `SPMMAT1` table holds exactly the bound methods of `SPMMAT1`: the inherited ones and its three rules. |
| Reader.Spm2MembersSorted | spmread.py:71 | The member table of `SPMMAT2` is in strictly increasing name order. |
| Reader.Spm2MembersDeclared | spmread.py:71 | The `SPMMAT2` table holds exactly the bound methods of `SPMMAT2`: the inherited ones and its two rules. |
| Reader.RuleMembers | spmread.py:72 | The `_read` filter keeps a member iff its name starts with `_read`. |
| Reader.RuleMembersAppend | spmread.py:72 | The filter keeps order and splits over a concatenation. |
| Reader.RuleMembersKeepsAll | spmread.py:72 | A list of `_read` members passes the filter unchanged. |
| Reader.NonRulesFiltered | spmread.py:72 | `__init__`, `get_image` and `read_all` do not pass the filter. |
| Reader.RuleMembersOf | spmread.py:71-72 | For each subclass, the filtered member list is exactly its rules, in name order. |
| Reader.RuleMethods | spmread.py:71-72 | The first two statements of `read_all` yield the subclass's rules in name order. |
| Reader.KeyOf | spmread.py:83 | `re.sub('_read_', '', method[0])`: the dictionary key of a rule's value. `Reader.KeyOfRule` and `Text.RemoveAllPrefix` give its meaning. |
| Reader.KeyOfRule | spmread.py:83 | A rule's key is its method name with `_read_` removed. |
| Reader.ApplySpec | spmread.py:79-80 | Calling a rule gives a dictionary iff the rule is `_read_design`. |
| Reader.Apply | spmread.py:79 | Calling a rule, using the loop versions of motreg and contrasts, gives the rule's specified value. |
| Reader.Merge | spmread.py:80-84 | A dictionary value is merged key by key and a single value is stored under the rule's key. Every other key keeps its value. |
| Reader.Run | spmread.py:78-84 | The loop of `read_all` as a recursion: `Reader.RunOk`, `Reader.RunFirstError`, `Reader.RunSingle` and `Reader.RunBatch` give its meaning. |
| Reader.ReadAllSpec | spmread.py:68-87 | `read_all` as a function. `Reader.ReadAllOk` says when it succeeds; `Outputs.ReadAllSpm1Values` and `Outputs.ReadAllSpm2Values` give the record. |
| Reader.ReadAll | spmread.py:68-87 | The loop over the filtered members computes `ReadAllSpec`: the subclass's rules in name order, merged from an empty dictionary, stopping at the first that raises. |
| Reader.RunOk | spmread.py:78-84 | The run succeeds iff every rule in it succeeds, whatever the dictionary it starts from. |
| Reader.AllOkIff | spmread.py:78-79 | Every rule succeeding means no rule in the list fails. |
| Reader.ReadAllOk | spmread.py:68-87 | `read_all` succeeds iff every rule of the object's subclass succeeds. |
| Reader.RunFirstError | spmread.py:78-79 | A failed run reports the error of the first rule that fails, and every rule before it succeeded. |
| Reader.RunSingle | spmread.py:82-84 | A rule with a single value stores it under its key and goes on. |
| Reader.RunBatch | spmread.py:80-81 | A rule with a dictionary value merges it and goes on. |
| Outputs.RunCommonTail | spmread.py:97-110 | The inherited rules nscan, spmid and swd store their values under their keys. |
| Outputs.Spm2AllOk | spmread.py:163-201 | All rules of `SPMMAT2` succeed iff each of its six rules does. |
| Outputs.ReadAllSpm2Ok | spmread.py:68-87 | `read_all` on an `SPMMAT2` succeeds iff the contrasts can be read, the four fields can be reached, and `nscan` has a leaf. |
| Outputs.RunSpm2Rules | spmread.py:78-84 | The six rules of `SPMMAT2` fill a six-key dictionary. |
| Outputs.ReadAllSpm2Values | spmread.py:68-87 | The `SPMMAT2` record has exactly the keys contrasts, des, descrip, nscan, spmid and swd. Each key holds its rule's value. |
| Outputs.Spm1AllOk | spmread.py:116-161 | All rules of `SPMMAT1` succeed iff each of its seven rules does. |
| Outputs.ReadAllSpm1Ok | spmread.py:68-87 | `read_all` on an `SPMMAT1` succeeds iff `xVi.form`, `xY.VY.descrip`, `SPMid` and `swd` can be reached, the design can be read, the motion search succeeds, and `nscan` has a leaf. |
| Outputs.RunSpm1Rules | spmread.py:78-84 | The design dictionary is merged between descrip and motreg. |
| Outputs.Spm1Layout | spmread.py:80-84 | No value overwrites another, because the design keys differ from the rule keys. |
| Outputs.ReadAllSpm1Values | spmread.py:68-87 | The `SPMMAT1` record has exactly the keys autocorr, descrip, motreg, nscan, spmid, swd and the five design keys. Each key holds its rule's value. |
| Factory.SpmStruct | spmread.py:29-34 | Taking `_mat['SPM'][0,0]` succeeds iff `SPM` is present and reaches a struct. A missing `SPM` raises the "Bad SPM.mat" error. |
| Factory.SpmFactory | spmread.py:21-40 | A load failure or a bad `SPM` variable raises. Otherwise the object holds the directory of the file and the struct, and is an `SPMMAT1` iff the struct has a `Sess` field. |
| Factory.NoSpmRefused | spmread.py:30-31 | A file without `SPM` is refused with "Bad SPM.mat". |
| Factory.FactoryRoundTrip | spmread.py:21-40 | A file `d/b` whose `SPM` is a 1x1 struct is read back as that struct. The object is rooted at `d` and its class is chosen by `Sess`. |
| Factory.FactoryBareName | spmread.py:24 | A file name without a directory gives the empty path. |

## Left out

- `spmcrawl.py` is not part of this model. It only walks the file system and collects objects.
- `sio.loadmat` (spmread.py:27): `Factory.SpmFactory` takes the decoded file, or the decoding error, as a parameter.
- NumPy mechanics beyond what the rules touch:
  - dtypes, shapes and `np.void` records all become `Arr` and `Rec`;
  - `[0,0]` on a 2-D array is modelled as `[0][0]`;
  - a struct that is not a record makes `mat.dtype.names` fail, modelled as an error.
- Floating-point numbers: `Num` holds an integer. The rules only move numbers around and never compute with them.
- `nib.load` (spmread.py:92) is the `Loader` parameter. `None` stands for any exception the bare `except` swallows. The image file name is built from the directory and the value inside the loader.
- Flatten.OneOrList: the debug `print val` (spmread.py:15) is output only and is not modelled.
- `inspect.getmembers` (spmread.py:71) is replaced by an explicit member table per subclass. The table lists the bound methods the classes declare and is proved sorted. Reflection over other attributes is not modelled. The static `flatten` and `flatten_gen` are not bound methods, so they do not appear.
- Rules.ReadNscan: only a list counts as iterable for `hasattr(nscan, '__iter__')`. This follows the Python 2 runtime the source is written for, where strings and NumPy scalars have no `__iter__`.
- Regular expressions cover only the source's three patterns:
  - they are compiled without `re.UNICODE`, so `\s` is ASCII whitespace;
  - case-insensitive matching folds ASCII letters only;
  - `lower()` is modelled on ASCII letters only. This is a simplification: the strings `loadmat` returns are Unicode strings, whose `lower()` also lower-cases non-ASCII letters.
- Rules.ReadMotreg: the check that a regressor is a string comes before its pattern loop. In the source, `re.search` raises on a non-string at the first pattern. Both give the same result.
- Rules.ReadDesign: the `locals()` snapshot is modelled as the explicit five-key dictionary. The filter on `_` and `self` leaves exactly those five keys.
- Values.Index: indexing a record (an `np.void`, where `[0]` gives its first field) or a string (which gives a character) is an error in the model. The rules only index arrays on files of the layouts SPM writes.
- Values.Len: `len()` of a string or a record is an error in the model; in Python both succeed.
- Values.Field: taking a field of an empty array succeeds with an empty array, and no dtype is tracked. In NumPy an empty array without that field in its dtype raises.
- Rules.Iterate: its clause that every single value other than a string is not iterable is wrong for a record: a single `np.void` is an error in the model, while in Python iterating it yields the record's fields. The rule that iterates (`_read_motreg`) reads `Sess.C.name`, which holds names, not records.
- Distinct Python exception types are folded into the `Error` datatype. The model keeps where an error arises, not its exact class or message.
