/**
 * _data_update_create: the option string shared by "data create" and
 * "data update".  The specification goes through an ordered list of
 * flag/value pairs (Flags) that is rendered to text (RenderAll); the method
 * DataUpdateCreate builds the text directly with successive appends, as the
 * Python code does, and is proved to produce the rendering of that list.
 */
module Builder {
  import opened Common
  import opened PyStrings
  import opened Validators
  import opened Alias

  datatype FlagTag =
    | TitleFlag | CollectionFlag | AliasFlag | DescriptionFlag | KeywordsFlag
    | MetadataFileFlag | MetadataInlineFlag

  datatype Flag = Flag(tag: FlagTag, value: string)

  /** The position of each flag in the command; the two metadata flags share one. */
  function Rank(t: FlagTag): nat {
    match t
    case TitleFlag => 0
    case CollectionFlag => 1
    case AliasFlag => 2
    case DescriptionFlag => 3
    case KeywordsFlag => 4
    case MetadataFileFlag => 5
    case MetadataInlineFlag => 5
  }

  /** The letter after the dash for each flag. */
  function Letter(t: FlagTag): char {
    match t
    case TitleFlag => 't'
    case CollectionFlag => 'c'
    case AliasFlag => 'a'
    case DescriptionFlag => 'd'
    case KeywordsFlag => 'k'
    case MetadataFileFlag => 'f'
    case MetadataInlineFlag => 'm'
  }

  /** The text of one flag: a space, the dash and letter, then its value. */
  function Render(f: Flag): string {
    match f.tag
    case TitleFlag => " -t " + f.value
    case CollectionFlag => " -c " + f.value
    case AliasFlag => " -a \"" + f.value + "\""
    case DescriptionFlag => " -d \"" + f.value + "\""
    case KeywordsFlag => " -k" + f.value
    case MetadataFileFlag => " -f " + f.value
    case MetadataInlineFlag => " -m '" + f.value + "'"
  }

  function RenderAll(fs: seq<Flag>): string {
    if fs == [] then "" else Render(fs[0]) + RenderAll(fs[1..])
  }

  /** The keyword arguments of _data_update_create that it reads. */
  datatype Fields = Fields(
    title: PyValue, alias: PyValue, description: PyValue, collection: PyValue,
    keywords: PyValue, metadata: PyValue)

  const NoFields := Fields(PyNone, PyNone, PyNone, PyNone, PyNone, PyNone)

  function NotStringError(name: string): Error {
    ValueError("\"" + name + "\" must be a non-empty string")
  }

  const AliasError := ValueError("\"alias\" must be a non-empty string" + " with NO spaces or fancy characters")
  const KeywordsError := ValueError("\"keywords\" must be" + " a list of strings")
  const MetadataError := ValueError("\"metadata\" must either be" + " a path to a JSON file or a dictionary")

  function MissingFileError(path: string): Error {
    FileNotFoundError("JSON Metadata file does not exist:" + path)
  }

  /** title, collection and description: trimmed, and dropped when blank. */
  function TextStage(tag: FlagTag, v: PyValue, name: string): Result<seq<Flag>> {
    if v.PyStr? then
      var t := Strip(v.s);
      if |t| > 0 then Ok([Flag(tag, t)]) else Ok([])
    else if v.PyNone? then Ok([])
    else Err(NotStringError(name))
  }

  /** alias: cleaned, and dropped when nothing is left of it. */
  function AliasStage(v: PyValue): Result<seq<Flag>> {
    if v.PyStr? then
      var a := CleanAlias(v.s);
      if |a| > 0 then Ok([Flag(AliasFlag, a)]) else Ok([])
    else if v.PyNone? then Ok([])
    else Err(AliasError)
  }

  /** keywords: a list or tuple of non-blank strings, joined by commas. */
  function KeywordsStage(v: PyValue): Result<seq<Flag>> {
    if IsSequence(v) then
      match ValidateListOfStrings(v, "keywords")
      case Err(e) => Err(e)
      case Ok(ks) => if |ks| > 0 then Ok([Flag(KeywordsFlag, Join(",", ks))]) else Ok([])
    else if v.PyNone? then Ok([])
    else Err(KeywordsError)
  }

  /** metadata: the path of an existing file, or a dict inlined as JSON. */
  function MetadataStage(v: PyValue, pathExists: string -> bool): Result<seq<Flag>> {
    if v.PyStr? then
      if pathExists(v.s) then Ok([Flag(MetadataFileFlag, v.s)]) else Err(MissingFileError(v.s))
    else if v.PyDict? then Ok([Flag(MetadataInlineFlag, v.json)])
    else if v.PyNone? then Ok([])
    else Err(MetadataError)
  }

  /** The stages in the order the Python code runs them. */
  function Stages(f: Fields, pathExists: string -> bool): seq<Result<seq<Flag>>> {
    [ TextStage(TitleFlag, f.title, "title"),
      TextStage(CollectionFlag, f.collection, "collection"),
      AliasStage(f.alias),
      TextStage(DescriptionFlag, f.description, "description"),
      KeywordsStage(f.keywords),
      MetadataStage(f.metadata, pathExists) ]
  }

  /** The flags of all stages in order, or the error of the first stage that fails. */
  function Combine(rs: seq<Result<seq<Flag>>>): Result<seq<Flag>> {
    if rs == [] then Ok([])
    else if rs[0].Err? then rs[0]
    else
      match Combine(rs[1..])
      case Err(e) => Err(e)
      case Ok(t) => Ok(rs[0].value + t)
  }

  function Flags(f: Fields, pathExists: string -> bool): Result<seq<Flag>> {
    Combine(Stages(f, pathExists))
  }

  /** The option text that _data_update_create returns, or the exception it raises. */
  function BuildOptions(f: Fields, pathExists: string -> bool): Result<string> {
    match Flags(f, pathExists)
    case Err(e) => Err(e)
    case Ok(fs) => Ok(RenderAll(fs))
  }

  lemma {:induction false} RenderAllAppend(a: seq<Flag>, b: seq<Flag>)
    ensures RenderAll(a + b) == RenderAll(a) + RenderAll(b)
  {
    if a == [] {
      assert a + b == b;
    } else {
      assert (a + b)[1..] == a[1..] + b;
      RenderAllAppend(a[1..], b);
    }
  }

  lemma RenderAllSingle(x: Flag)
    ensures RenderAll([x]) == Render(x)
  {
    assert [x][1..] == [];
  }

  /** The text of a stage's flags, or its error. */
  function Rendered(st: Result<seq<Flag>>): Result<string> {
    match st
    case Err(e) => Err(e)
    case Ok(fs) => Ok(RenderAll(fs))
  }

  /**
   * The `com +=` step of _data_update_create for title, collection or
   * description, executed statement by statement; TextStage is the value it
   * is proved to render, and the lemmas about the builder speak of TextStage.
   */
  method TextOption(tag: FlagTag, v: PyValue, name: string) returns (r: Result<string>)
    ensures r == Rendered(TextStage(tag, v, name))
  {
    r := Ok("");
    if v.PyStr? {
      var text := Strip(v.s);
      if |text| > 0 {
        RenderAllSingle(Flag(tag, text));
        r := Ok(Render(Flag(tag, text)));
      }
    } else if !v.PyNone? {
      r := Err(NotStringError(name));
    }
  }

  /** The `com +=` step of the alias branch of _data_update_create; it renders AliasStage. */
  method AliasOption(v: PyValue) returns (r: Result<string>)
    ensures r == Rendered(AliasStage(v))
  {
    r := Ok("");
    if v.PyStr? {
      var alias := GetCleanAlias(v.s);
      if |alias| > 0 {
        RenderAllSingle(Flag(AliasFlag, alias));
        r := Ok(" -a \"" + alias + "\"");
      }
    } else if !v.PyNone? {
      r := Err(AliasError);
    }
  }

  /** The `com +=` step of the keywords branch of _data_update_create; it renders KeywordsStage. */
  method KeywordsOption(v: PyValue) returns (r: Result<string>)
    ensures r == Rendered(KeywordsStage(v))
  {
    r := Ok("");
    if IsSequence(v) {
      var keywords := ValidateListOfStrings(v, "keywords");
      if keywords.Err? {
        r := Err(keywords.error);
      } else if |keywords.value| > 0 {
        RenderAllSingle(Flag(KeywordsFlag, Join(",", keywords.value)));
        r := Ok(" -k" + Join(",", keywords.value));
      }
    } else if !v.PyNone? {
      r := Err(KeywordsError);
    }
  }

  /**
   * The `com +=` step of the metadata branch of _data_update_create; it
   * renders MetadataStage. pathExists stands for os.path.exists.
   */
  method MetadataOption(v: PyValue, pathExists: string -> bool) returns (r: Result<string>)
    ensures r == Rendered(MetadataStage(v, pathExists))
  {
    r := Ok("");
    if v.PyStr? {
      if pathExists(v.s) {
        RenderAllSingle(Flag(MetadataFileFlag, v.s));
        r := Ok(" -f " + v.s);
      } else {
        r := Err(MissingFileError(v.s));
      }
    } else if v.PyDict? {
      RenderAllSingle(Flag(MetadataInlineFlag, v.json));
      r := Ok(" -m '" + v.json + "'");
    } else if !v.PyNone? {
      r := Err(MetadataError);
    }
  }

  /**
   * _data_update_create: appends one fragment per usable field to `com`,
   * raising on the first field of the wrong type or naming a missing file.
   */
  method DataUpdateCreate(f: Fields, pathExists: string -> bool) returns (r: Result<string>)
    ensures r == BuildOptions(f, pathExists)
  {
    BuildOptionsChain(f, pathExists);
    var com := "";

    var frag := TextOption(TitleFlag, f.title, "title");
    if frag.Err? { return frag; }
    com := com + frag.value;

    frag := TextOption(CollectionFlag, f.collection, "collection");
    if frag.Err? { return frag; }
    com := com + frag.value;

    frag := AliasOption(f.alias);
    if frag.Err? { return frag; }
    com := com + frag.value;

    frag := TextOption(DescriptionFlag, f.description, "description");
    if frag.Err? { return frag; }
    com := com + frag.value;

    frag := KeywordsOption(f.keywords);
    if frag.Err? { return frag; }
    com := com + frag.value;

    frag := MetadataOption(f.metadata, pathExists);
    if frag.Err? { return frag; }
    com := com + frag.value;

    return Ok(com);
  }

  /** Appending the next fragment to a partial option text; the first exception stays. */
  function Then(acc: Result<string>, frag: Result<string>): Result<string> {
    if acc.Err? then acc else if frag.Err? then frag else Ok(acc.value + frag.value)
  }

  /** The stages' fragments appended left to right, starting from the empty text. */
  function Appended(rs: seq<Result<seq<Flag>>>): Result<string> {
    if rs == [] then Ok("") else Then(Appended(rs[..|rs| - 1]), Rendered(rs[|rs| - 1]))
  }

  /** Rendering the combined flags is appending the stages' fragments one by one. */
  lemma {:induction false} CombineAppended(rs: seq<Result<seq<Flag>>>)
    ensures Rendered(Combine(rs)) == Appended(rs)
    decreases |rs|
  {
    if rs != [] {
      var n := |rs| - 1;
      CombineAppended(rs[..n]);
      var c := Combine(rs[..n]);
      if c.Err? {
        CombineErrPrefix(rs, n);
      } else if rs[n].Err? {
        CombinePrefixError(rs, n);
      } else {
        CombinePrefixStep(rs, n);
        assert rs[..n + 1] == rs;
        RenderAllAppend(c.value, rs[n].value);
      }
    }
  }

  /** The option text is the six fragments appended in the order the fields are read. */
  lemma BuildOptionsChain(f: Fields, pathExists: string -> bool)
    ensures BuildOptions(f, pathExists) ==
              Then(Then(Then(Then(Then(Then(Ok(""),
                Rendered(TextStage(TitleFlag, f.title, "title"))),
                Rendered(TextStage(CollectionFlag, f.collection, "collection"))),
                Rendered(AliasStage(f.alias))),
                Rendered(TextStage(DescriptionFlag, f.description, "description"))),
                Rendered(KeywordsStage(f.keywords))),
                Rendered(MetadataStage(f.metadata, pathExists)))
  {
    var rs := Stages(f, pathExists);
    CombineAppended(rs);
    AppendedSix(rs);
  }

  /** Six stages appended, written out. */
  lemma AppendedSix(rs: seq<Result<seq<Flag>>>)
    requires |rs| == 6
    ensures Appended(rs) ==
              Then(Then(Then(Then(Then(Then(Ok(""), Rendered(rs[0])), Rendered(rs[1])), Rendered(rs[2])),
                                  Rendered(rs[3])), Rendered(rs[4])), Rendered(rs[5]))
  {
    assert rs[..6] == rs;
    assert rs[..0] == [];
    AppendedStep(rs, 1);
    AppendedStep(rs, 2);
    AppendedStep(rs, 3);
    AppendedStep(rs, 4);
    AppendedStep(rs, 5);
    AppendedStep(rs, 6);
  }

  lemma AppendedStep(rs: seq<Result<seq<Flag>>>, n: nat)
    requires 0 < n <= |rs|
    ensures Appended(rs[..n]) == Then(Appended(rs[..n - 1]), Rendered(rs[n - 1]))
  {
    assert rs[..n][..n - 1] == rs[..n - 1];
  }

  /** A prefix that fails decides the whole result. */
  lemma {:induction false} CombineErrPrefix(rs: seq<Result<seq<Flag>>>, n: nat)
    requires 0 < n <= |rs| && Combine(rs[..n]).Err?
    ensures Combine(rs) == Combine(rs[..n])
  {
    assert rs[..n][0] == rs[0];
    if rs[0].Ok? {
      assert rs[..n][1..] == rs[1..][..n - 1];
      CombineErrPrefix(rs[1..], n - 1);
    }
  }

  /** Running one more stage after a successful prefix. */
  lemma {:induction false} CombinePrefixStep(rs: seq<Result<seq<Flag>>>, n: nat)
    requires n < |rs| && Combine(rs[..n]).Ok? && rs[n].Ok?
    ensures Combine(rs[..n + 1]) == Ok(Combine(rs[..n]).value + rs[n].value)
  {
    if n == 0 {
      assert rs[..1][1..] == [] && rs[..1][0] == rs[0] && rs[..0] == [];
      assert rs[0].value + [] == rs[0].value == [] + rs[0].value;
    } else {
      assert rs[..n + 1][1..] == rs[1..][..n];
      assert rs[..n][1..] == rs[1..][..n - 1];
      assert rs[..n][0] == rs[0] && rs[..n + 1][0] == rs[0];
      assert rs[1..][n - 1] == rs[n];
      CombinePrefixStep(rs[1..], n - 1);
      var head := rs[0].value;
      var mid := Combine(rs[1..][..n - 1]).value;
      assert Combine(rs[..n]) == Ok(head + mid);
      assert Combine(rs[..n + 1]) == Ok(head + (mid + rs[n].value));
      assert head + (mid + rs[n].value) == (head + mid) + rs[n].value;
    }
  }

  /** A stage that fails after a successful prefix decides the whole result. */
  lemma {:induction false} CombinePrefixError(rs: seq<Result<seq<Flag>>>, n: nat)
    requires n < |rs| && Combine(rs[..n]).Ok? && rs[n].Err?
    ensures Combine(rs) == rs[n]
    ensures Rendered(Combine(rs)) == Rendered(rs[n])
  {
    if n > 0 {
      assert rs[..n][1..] == rs[1..][..n - 1];
      CombinePrefixError(rs[1..], n - 1);
    }
  }

  // ---------------------------------------------------------------------
  // What the option string says about its arguments
  // ---------------------------------------------------------------------

  /** The position of the first stage that fails, |rs| if none does. */
  function FirstErr(rs: seq<Result<seq<Flag>>>): (k: nat)
    ensures k <= |rs|
    ensures forall j :: 0 <= j < k ==> rs[j].Ok?
    ensures k < |rs| ==> rs[k].Err?
  {
    if rs == [] || rs[0].Err? then 0
    else
      var k := FirstErr(rs[1..]);
      assert forall j :: 1 <= j < |rs| ==> rs[j] == rs[1..][j - 1];
      1 + k
  }

  /** The flags of all successful stages, in order. */
  function Concat(rs: seq<Result<seq<Flag>>>): seq<Flag> {
    if rs == [] then []
    else (if rs[0].Ok? then rs[0].value else []) + Concat(rs[1..])
  }

  /** Combine is the error of the first failing stage, or else every stage's flags in order. */
  lemma {:induction false} CombineSpec(rs: seq<Result<seq<Flag>>>)
    ensures FirstErr(rs) < |rs| ==> Combine(rs) == rs[FirstErr(rs)]
    ensures FirstErr(rs) == |rs| ==> Combine(rs) == Ok(Concat(rs))
  {
    if rs != [] && rs[0].Ok? {
      CombineSpec(rs[1..]);
      if FirstErr(rs[1..]) < |rs| - 1 {
        assert rs[1..][FirstErr(rs[1..])] == rs[FirstErr(rs)];
      }
    }
  }

  predicate HasTag(fs: seq<Flag>, t: FlagTag) {
    exists i :: 0 <= i < |fs| && fs[i].tag == t
  }

  lemma ConcatHasTag(rs: seq<Result<seq<Flag>>>, t: FlagTag)
    ensures HasTag(Concat(rs), t) <==> exists k :: 0 <= k < |rs| && rs[k].Ok? && HasTag(rs[k].value, t)
  {
    if HasTag(Concat(rs), t) {
      ConcatHasTagFrom(rs, t);
    }
    if exists k :: 0 <= k < |rs| && rs[k].Ok? && HasTag(rs[k].value, t) {
      var k :| 0 <= k < |rs| && rs[k].Ok? && HasTag(rs[k].value, t);
      ConcatHasTagTo(rs, t, k);
    }
  }

  /** A flag of the concatenation comes from one of the successful stages. */
  lemma {:induction false} ConcatHasTagFrom(rs: seq<Result<seq<Flag>>>, t: FlagTag)
    requires HasTag(Concat(rs), t)
    ensures exists k :: 0 <= k < |rs| && rs[k].Ok? && HasTag(rs[k].value, t)
  {
    var head := if rs[0].Ok? then rs[0].value else [];
    var c := Concat(rs);
    assert c == head + Concat(rs[1..]);
    var i :| 0 <= i < |c| && c[i].tag == t;
    if i < |head| {
      assert head[i] == c[i];
      assert rs[0].Ok? && HasTag(rs[0].value, t);
    } else {
      assert Concat(rs[1..])[i - |head|] == c[i];
      ConcatHasTagFrom(rs[1..], t);
      var k :| 0 <= k < |rs[1..]| && rs[1..][k].Ok? && HasTag(rs[1..][k].value, t);
      assert rs[k + 1] == rs[1..][k];
    }
  }

  /** Every flag of a successful stage is in the concatenation. */
  lemma {:induction false} ConcatHasTagTo(rs: seq<Result<seq<Flag>>>, t: FlagTag, k: nat)
    requires k < |rs| && rs[k].Ok? && HasTag(rs[k].value, t)
    ensures HasTag(Concat(rs), t)
  {
    var head := if rs[0].Ok? then rs[0].value else [];
    var c := Concat(rs);
    assert c == head + Concat(rs[1..]);
    if k == 0 {
      var i :| 0 <= i < |head| && head[i].tag == t;
      assert c[i] == head[i];
    } else {
      assert rs[1..][k - 1] == rs[k];
      ConcatHasTagTo(rs[1..], t, k - 1);
      var d := Concat(rs[1..]);
      var i :| 0 <= i < |d| && d[i].tag == t;
      assert c[|head| + i] == d[i];
    }
  }


  /** Every flag of stage k has rank k, and no stage yields more than one flag. */
  lemma StageShape(f: Fields, pathExists: string -> bool, k: nat)
    requires k < 6 && Stages(f, pathExists)[k].Ok?
    ensures var fs := Stages(f, pathExists)[k].value;
            |fs| <= 1 && forall i :: 0 <= i < |fs| ==> Rank(fs[i].tag) == k
  {
    if k == 0 {
      TextStageShape(TitleFlag, f.title, "title");
    } else if k == 1 {
      TextStageShape(CollectionFlag, f.collection, "collection");
    } else if k == 2 {
      AliasStageShape(f.alias);
    } else if k == 3 {
      TextStageShape(DescriptionFlag, f.description, "description");
    } else if k == 4 {
      KeywordsStageShape(f.keywords);
    } else {
      MetadataStageShape(f.metadata, pathExists);
    }
  }

  /** A stage outcome with at most one flag, and only flags of rank k. */
  predicate ShapedAs(st: Result<seq<Flag>>, k: nat) {
    st.Ok? ==> |st.value| <= 1 && forall i :: 0 <= i < |st.value| ==> Rank(st.value[i].tag) == k
  }

  lemma TextStageShape(tag: FlagTag, v: PyValue, name: string)
    ensures ShapedAs(TextStage(tag, v, name), Rank(tag))
  {
  }

  lemma AliasStageShape(v: PyValue)
    ensures ShapedAs(AliasStage(v), Rank(AliasFlag))
  {
  }

  lemma KeywordsStageShape(v: PyValue)
    ensures ShapedAs(KeywordsStage(v), Rank(KeywordsFlag))
  {
  }

  lemma MetadataStageShape(v: PyValue, pathExists: string -> bool)
    ensures ShapedAs(MetadataStage(v, pathExists), Rank(MetadataFileFlag))
  {
  }

  /**
   * The argument that makes a flag appear: a non-blank title, collection or
   * description, an alias that is not empty once cleaned, a non-empty list of
   * keywords, a metadata path or a metadata dict.
   */
  predicate Supplied(f: Fields, t: FlagTag) {
    match t
    case TitleFlag => ValidString(f.title)
    case CollectionFlag => ValidString(f.collection)
    case AliasFlag => f.alias.PyStr? && CleanAlias(f.alias.s) != ""
    case DescriptionFlag => ValidString(f.description)
    case KeywordsFlag => IsSequence(f.keywords) && |f.keywords.items| > 0
    case MetadataFileFlag => f.metadata.PyStr?
    case MetadataInlineFlag => f.metadata.PyDict?
  }

  /** The flag of stage k is the one for the argument that stage reads, when that argument is supplied. */
  lemma StageHasTag(f: Fields, pathExists: string -> bool, k: nat, t: FlagTag)
    requires k < 6 && Stages(f, pathExists)[k].Ok?
    ensures HasTag(Stages(f, pathExists)[k].value, t) <==> Rank(t) == k && Supplied(f, t)
  {
    var st := Stages(f, pathExists)[k];
    StageShape(f, pathExists, k);
    if k == 0 {
      assert st == TextStage(TitleFlag, f.title, "title");
    } else if k == 1 {
      assert st == TextStage(CollectionFlag, f.collection, "collection");
    } else if k == 2 {
      assert st == AliasStage(f.alias);
    } else if k == 3 {
      assert st == TextStage(DescriptionFlag, f.description, "description");
    } else if k == 4 {
      assert st == KeywordsStage(f.keywords);
      if IsSequence(f.keywords) {
        var ks := ValidateListOfStrings(f.keywords, "keywords");
        assert ks.Ok? && |ks.value| == |f.keywords.items|;
      }
    } else {
      assert st == MetadataStage(f.metadata, pathExists);
    }
    if st.value != [] {
      assert HasTag(st.value, st.value[0].tag);
    }
  }

  /**
   * A successful build emits a flag exactly for the arguments that are
   * supplied: None, a blank string, an alias that cleans to nothing and an
   * empty keyword list add nothing.
   */
  lemma FlagsMatchArguments(f: Fields, pathExists: string -> bool, t: FlagTag)
    requires Flags(f, pathExists).Ok?
    ensures HasTag(Flags(f, pathExists).value, t) <==> Supplied(f, t)
  {
    var rs := Stages(f, pathExists);
    CombineSpec(rs);
    ConcatHasTag(rs, t);
    forall k | 0 <= k < |rs| ensures rs[k].Ok? && (HasTag(rs[k].value, t) <==> Rank(t) == k && Supplied(f, t)) {
      StageHasTag(f, pathExists, k, t);
    }
    if Supplied(f, t) {
      assert Rank(t) < |rs| && HasTag(rs[Rank(t)].value, t);
    }
  }

  /** Ranks strictly increase along the list. */
  predicate Ranked(fs: seq<Flag>) {
    forall i, j :: 0 <= i < j < |fs| ==> Rank(fs[i].tag) < Rank(fs[j].tag)
  }

  lemma {:induction false} ConcatRanked(rs: seq<Result<seq<Flag>>>, base: nat)
    requires forall k :: 0 <= k < |rs| && rs[k].Ok? ==>
               |rs[k].value| <= 1 && forall i :: 0 <= i < |rs[k].value| ==> Rank(rs[k].value[i].tag) == base + k
    ensures Ranked(Concat(rs))
    ensures forall i :: 0 <= i < |Concat(rs)| ==> base <= Rank(Concat(rs)[i].tag) < base + |rs|
  {
    if rs != [] {
      forall k | 0 <= k < |rs[1..]| && rs[1..][k].Ok?
        ensures |rs[1..][k].value| <= 1
        ensures forall i :: 0 <= i < |rs[1..][k].value| ==> Rank(rs[1..][k].value[i].tag) == base + 1 + k
      {
        assert rs[1..][k] == rs[k + 1];
      }
      ConcatRanked(rs[1..], base + 1);
      var head := if rs[0].Ok? then rs[0].value else [];
      var tail := Concat(rs[1..]);
      assert Concat(rs) == head + tail;
      forall i | 0 <= i < |head| ensures Rank(head[i].tag) == base {
      }
    }
  }

  /**
   * Flags come out in the fixed order -t, -c, -a, -d, -k, then -f or -m, each
   * at most once, so -f and -m never appear together.
   */
  lemma FlagsInOrder(f: Fields, pathExists: string -> bool)
    requires Flags(f, pathExists).Ok?
    ensures Ranked(Flags(f, pathExists).value)
  {
    var rs := Stages(f, pathExists);
    forall k | 0 <= k < |rs| && rs[k].Ok?
      ensures |rs[k].value| <= 1 && forall i :: 0 <= i < |rs[k].value| ==> Rank(rs[k].value[i].tag) == 0 + k
    {
      StageShape(f, pathExists, k);
    }
    ConcatRanked(rs, 0);
    CombineSpec(rs);
  }

  /** A field of the wrong type, a blank keyword or a missing metadata file. */
  predicate BadArgument(f: Fields, pathExists: string -> bool) {
    || (!f.title.PyStr? && !f.title.PyNone?)
    || (!f.collection.PyStr? && !f.collection.PyNone?)
    || (!f.alias.PyStr? && !f.alias.PyNone?)
    || (!f.description.PyStr? && !f.description.PyNone?)
    || (!IsSequence(f.keywords) && !f.keywords.PyNone?)
    || (IsSequence(f.keywords) && FirstInvalid(f.keywords.items) < |f.keywords.items|)
    || (f.metadata.PyStr? && !pathExists(f.metadata.s))
    || (!f.metadata.PyStr? && !f.metadata.PyDict? && !f.metadata.PyNone?)
  }

  /** Which argument makes each stage fail. */
  lemma StagesFail(f: Fields, pathExists: string -> bool)
    ensures var rs := Stages(f, pathExists);
            && (rs[0].Err? <==> !f.title.PyStr? && !f.title.PyNone?)
            && (rs[1].Err? <==> !f.collection.PyStr? && !f.collection.PyNone?)
            && (rs[2].Err? <==> !f.alias.PyStr? && !f.alias.PyNone?)
            && (rs[3].Err? <==> !f.description.PyStr? && !f.description.PyNone?)
            && (rs[4].Err? <==> (!IsSequence(f.keywords) && !f.keywords.PyNone?)
                                || (IsSequence(f.keywords) && FirstInvalid(f.keywords.items) < |f.keywords.items|))
            && (rs[5].Err? <==> (f.metadata.PyStr? && !pathExists(f.metadata.s))
                                || (!f.metadata.PyStr? && !f.metadata.PyDict? && !f.metadata.PyNone?))
  {
    if IsSequence(f.keywords) {
      ValidateEachOutcome(f.keywords.items, "keywords");
    }
  }

  /**
   * The builder raises exactly when some argument is bad, and then raises
   * the exception of the first bad argument in the order the fields are read.
   */
  lemma BuildFailsIffBadArgument(f: Fields, pathExists: string -> bool)
    ensures Flags(f, pathExists).Err? <==> BadArgument(f, pathExists)
    ensures Flags(f, pathExists).Err? ==>
              var rs := Stages(f, pathExists);
              FirstErr(rs) < |rs| && Flags(f, pathExists) == rs[FirstErr(rs)]
  {
    var rs := Stages(f, pathExists);
    CombineSpec(rs);
    StagesFail(f, pathExists);
    if FirstErr(rs) == |rs| {
      assert forall k :: 0 <= k < 6 ==> rs[k].Ok?;
    } else {
      assert rs[FirstErr(rs)].Err?;
    }
  }

  /** With every argument left out the option string is empty. */
  lemma NoArgumentsNoOptions(pathExists: string -> bool)
    ensures BuildOptions(NoFields, pathExists) == Ok("")
  {
    var rs := Stages(NoFields, pathExists);
    assert rs == [Ok([]), Ok([]), Ok([]), Ok([]), Ok([]), Ok([])];
    CombineSpec(rs);
    assert FirstErr(rs) == |rs|;
    ConcatRanked(rs, 0);
    assert |Concat(rs)| == 0 by {
      ConcatLength(rs);
    }
  }

  /** Concat holds as many flags as the successful stages together. */
  lemma {:induction false} ConcatLength(rs: seq<Result<seq<Flag>>>)
    requires forall k :: 0 <= k < |rs| ==> rs[k] == Ok([])
    ensures Concat(rs) == []
  {
    if rs != [] {
      assert rs[0] == Ok([]);
      forall k | 0 <= k < |rs[1..]| ensures rs[1..][k] == Ok([]) {
        assert rs[1..][k] == rs[k + 1];
      }
      ConcatLength(rs[1..]);
    }
  }

  /** Rendering is empty exactly when there are no flags; otherwise it starts with " -". */
  lemma RenderAllShape(fs: seq<Flag>)
    ensures RenderAll(fs) == "" <==> fs == []
    ensures fs != [] ==>
              |RenderAll(fs)| >= 3 && RenderAll(fs)[..2] == " -" && RenderAll(fs)[2] == Letter(fs[0].tag)
  {
    if fs != [] {
      var head := Render(fs[0]);
      assert RenderAll(fs) == head + RenderAll(fs[1..]);
      assert |head| >= 3 && head[..2] == " -" && head[2] == Letter(fs[0].tag);
      assert RenderAll(fs)[..2] == head[..2];
    }
  }

  /**
   * The stripped option string is empty exactly when no flag was emitted:
   * what data_update's "nothing to update" test detects.
   */
  lemma StrippedOptionsEmptyIff(fs: seq<Flag>)
    ensures Strip(RenderAll(fs)) == "" <==> fs == []
  {
    RenderAllShape(fs);
    StripEmptyIff(RenderAll(fs));
    if fs != [] {
      assert RenderAll(fs)[1] == " -"[1];
    }
  }

  /**
   * Handing the builder an alias that is already clean emits exactly that
   * alias, and nothing when it is empty: create_df_record's re-cleaning
   * changes nothing.
   */
  lemma CleanedAliasPassesThrough(title: string)
    ensures var a := CleanAlias(title);
            AliasStage(PyStr(a)) == if a == "" then Ok([]) else Ok([Flag(AliasFlag, a)])
  {
    CleanAliasIdempotent(title);
  }
}
