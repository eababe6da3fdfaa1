/**
 * The record commands: list_items, view_record, record_exists,
 * create_df_record and data_update.  Each builds one command string, issues
 * it through the gateway and interprets the reply.
 */
module Lifecycle {
  import opened Common
  import opened PyStrings
  import opened Validators
  import opened Alias
  import opened DataFed
  import opened Builder

  // ---------------------------------------------------------------------
  // list_items
  // ---------------------------------------------------------------------

  /**
   * The text of an offset or count that list_items passes on: an int
   * (bool included, as isinstance counts it) greater than zero, in '{}'
   * format.  Anything else is dropped with a warning.
   */
  function PositiveIntText(v: PyValue): Option<string> {
    match v
    case PyInt(i) => if i > 0 then Some(NatToString(i)) else None
    case PyBool(b) => if b then Some("True") else None
    case _ => None
  }

  /** The listing that list_items returns: item, offset and total of the reply. */
  datatype ListingResult = ListingResult(items: seq<string>, offset: int, total: int)

  /** The command list_items sends. */
  function ListCommand(idOrAlias: string, offset: PyValue, count: PyValue): string {
    "ls" + NumberOption(" -O ", offset) + NumberOption(" -C ", count) + " " + idOrAlias
  }

  /** The flag and the number when the number is used, nothing otherwise. */
  function NumberOption(flag: string, v: PyValue): string {
    if PositiveIntText(v).Some? then flag + PositiveIntText(v).value else ""
  }

  /** The reply of list_items: a ListingReply becomes its listing, any other kind a KeyError. */
  function ListOutcome(resp: Response): (r: Result<ListingResult>)
    ensures r.Ok? ==> resp.Answered? && resp.reply.kind == ListingReply && resp.reply.payload.Listing?
    ensures resp.Answered? && resp.reply.kind != ListingReply ==> r == Err(KeyError(resp.reply.errMsg))
    ensures resp.Raised? ==> r == Err(GatewayError(resp.msg))
  {
    match resp
    case Raised(m) => Err(GatewayError(m))
    case Answered(reply) =>
      if reply.kind != ListingReply then Err(KeyError(reply.errMsg))
      else if !reply.payload.Listing? then Err(MalformedReply("item"))
      else Ok(ListingResult(reply.payload.items, reply.payload.offset, reply.payload.total))
  }

  /** list_items(id_or_alias, offset, count) */
  method ListItems(gw: Gateway, idOrAlias: string, offset: PyValue, count: PyValue) returns (r: Result<ListingResult>)
    modifies gw
    ensures gw.log == old(gw.log) + [ListCommand(idOrAlias, offset, count)]
    ensures r == ListOutcome(gw.respond(gw.log))
  {
    var com := "ls";
    var o := PositiveIntText(offset);
    if o.Some? {
      com := com + " -O " + o.value;
    }
    assert com == "ls" + (if o.Some? then " -O " + o.value else "");
    ghost var upToOffset := com;
    var c := PositiveIntText(count);
    if c.Some? {
      com := com + " -C " + c.value;
    }
    assert com == upToOffset + (if c.Some? then " -C " + c.value else "");
    com := com + " " + idOrAlias;
    var resp := gw.Command(com);
    r := ListOutcome(resp);
  }

  /** An offset or count that is not a positive int changes nothing in the command. */
  lemma IgnoredArgumentsActAsNone(idOrAlias: string, offset: PyValue, count: PyValue)
    ensures PositiveIntText(offset).None? ==>
              ListCommand(idOrAlias, offset, count) == ListCommand(idOrAlias, PyNone, count)
    ensures PositiveIntText(count).None? ==>
              ListCommand(idOrAlias, offset, count) == ListCommand(idOrAlias, offset, PyNone)
  {
  }

  /** Without offset and count the command is "ls " and the id. */
  lemma PlainListing(idOrAlias: string)
    ensures ListCommand(idOrAlias, PyNone, PyNone) == "ls " + idOrAlias
  {
  }

  /**
   * A positive offset n and count m appear as " -O n -C m", in that order,
   * and the numbers can be read back from the command.
   */
  lemma ListCommandCarriesNumbers(idOrAlias: string, n: nat, m: nat)
    requires n > 0 && m > 0
    ensures ListCommand(idOrAlias, PyInt(n), PyInt(m))
              == "ls" + " -O " + NatToString(n) + " -C " + NatToString(m) + " " + idOrAlias
    ensures ParseNat(NatToString(n)) == n && ParseNat(NatToString(m)) == m
  {
    ListNumbersText(idOrAlias, PyInt(n), PyInt(m), NatToString(n), NatToString(m));
    ParseNatToString(n);
    ParseNatToString(m);
  }

  /** Used offset and count texts o and c appear as " -O o -C c". */
  lemma ListNumbersText(idOrAlias: string, offset: PyValue, count: PyValue, o: string, c: string)
    requires PositiveIntText(offset) == Some(o) && PositiveIntText(count) == Some(c)
    ensures ListCommand(idOrAlias, offset, count) == "ls" + " -O " + o + " -C " + c + " " + idOrAlias
  {
    assert NumberOption(" -O ", offset) == " -O " + o;
    assert NumberOption(" -C ", count) == " -C " + c;
    Regroup("ls", " -O ", o, " -C ", c, " " + idOrAlias);
  }

  /** Proof helper: regroups a six-part concatenation of strings. */
  lemma Regroup(p: string, q: string, a: string, r: string, b: string, t: string)
    ensures p + (q + a) + (r + b) + t == p + q + a + r + b + t
  {
  }

  /** Every listing command starts with "ls" and ends with a space and the id. */
  lemma ListCommandFrame(idOrAlias: string, offset: PyValue, count: PyValue)
    ensures StartsWith(ListCommand(idOrAlias, offset, count), "ls")
    ensures EndsWith(ListCommand(idOrAlias, offset, count), " " + idOrAlias)
  {
    var x, y := NumberOption(" -O ", offset), NumberOption(" -C ", count);
    Regroup2("ls", x, y, " ", idOrAlias);
    ConcatFrame("ls", x + y, " " + idOrAlias);
  }

  /** Proof helper: regroups a five-part concatenation of strings. */
  lemma Regroup2(p: string, x: string, y: string, s: string, t: string)
    ensures p + x + y + s + t == p + (x + y) + (s + t)
  {
  }

  // ---------------------------------------------------------------------
  // view_record and record_exists
  // ---------------------------------------------------------------------

  function ViewCommand(aliasOrId: string): string {
    "data view " + aliasOrId
  }

  /** The reply of view_record: the record of a RecordDataReply, None for any other kind. */
  function ViewOutcome(resp: Response): (r: Result<Option<DataRecord>>)
    ensures resp.Answered? && resp.reply.kind != RecordDataReply ==> r == Ok(None)
    ensures r.Ok? && r.value.Some? ==> resp.Answered? && RecordFromReply(resp.reply) == Ok(r.value.value)
  {
    match resp
    case Raised(m) => Err(GatewayError(m))
    case Answered(reply) =>
      if reply.kind == RecordDataReply then
        match RecordFromReply(reply)
        case Err(e) => Err(e)
        case Ok(rec) => Ok(Some(rec))
      else Ok(None)
  }

  /** view_record(alias_or_id) */
  method ViewRecord(gw: Gateway, aliasOrId: string) returns (r: Result<Option<DataRecord>>)
    modifies gw
    ensures gw.log == old(gw.log) + [ViewCommand(aliasOrId)]
    ensures r == ViewOutcome(gw.respond(gw.log))
  {
    var resp := gw.Command("data view " + aliasOrId);
    r := ViewOutcome(resp);
  }

  /** isinstance(view_record(...), DataRecord) */
  function ExistsOutcome(resp: Response): Result<bool> {
    match ViewOutcome(resp)
    case Err(e) => Err(e)
    case Ok(rec) => Ok(rec.Some?)
  }

  /**
   * A record exists exactly when the gateway answers the view with a
   * RecordDataReply carrying data, and does not exist when it answers with
   * any other kind; an exception or a RecordDataReply without data raises.
   */
  lemma ExistsCharacterised(resp: Response)
    ensures ExistsOutcome(resp) == Ok(true) <==>
              resp.Answered? && resp.reply.kind == RecordDataReply
              && resp.reply.payload.Records? && |resp.reply.payload.data| > 0
    ensures ExistsOutcome(resp) == Ok(false) <==> resp.Answered? && resp.reply.kind != RecordDataReply
    ensures resp.Raised? ==> ExistsOutcome(resp) == Err(GatewayError(resp.msg))
  {
  }

  /** record_exists(alias_or_id) */
  method RecordExists(gw: Gateway, aliasOrId: string) returns (r: Result<bool>)
    modifies gw
    ensures gw.log == old(gw.log) + [ViewCommand(aliasOrId)]
    ensures r == ExistsOutcome(gw.respond(gw.log))
  {
    var obj := ViewRecord(gw, aliasOrId);
    if obj.Err? {
      return Err(obj.error);
    }
    r := Ok(obj.value.Some?);
  }

  // ---------------------------------------------------------------------
  // create_df_record
  // ---------------------------------------------------------------------

  function AlreadyExistsMsg(alias: string): string {
    "A data record with alias: " + alias + " already exists in DataFed!"
  }

  /** The arguments create_df_record hands to the builder: no title, the cleaned alias. */
  function CreateFields(alias: string, description: PyValue, keywords: PyValue, metadata: PyValue, collection: PyValue): Fields {
    Fields(PyNone, PyStr(alias), description, collection, keywords, metadata)
  }

  /** The options of "data create": every "-A" turned into "-D", then stripped. */
  function CreateOptions(options: string): string {
    Strip(Replace(options, "-A", "-D"))
  }

  function CreateLine(title: string, options: string): string {
    "data create \"" + title + "\" " + CreateOptions(options)
  }

  /** The "data create" command for a cleaned alias, or the builder's exception. */
  function CreateCommand(title: string, alias: string, description: PyValue, keywords: PyValue,
                         metadata: PyValue, collection: PyValue, pathExists: string -> bool): Result<string>
  {
    match BuildOptions(CreateFields(alias, description, keywords, metadata, collection), pathExists)
    case Err(e) => Err(e)
    case Ok(options) => Ok(CreateLine(title, options))
  }

  /**
   * The calls of create_df_record once the alias is clean: a view of that
   * alias; if that shows a record, a KeyError and nothing else; otherwise
   * the create command and its reply.
   */
  function CreateRun(respond: seq<string> -> Response, log: seq<string>, title: string, alias: string,
                     description: PyValue, keywords: PyValue, metadata: PyValue, collection: PyValue,
                     pathExists: string -> bool): Run<DataRecord>
  {
    var l1 := log + [ViewCommand(alias)];
    match ExistsOutcome(respond(l1))
    case Err(e) => Run(l1, Err(e))
    case Ok(found) =>
      if found then Run(l1, Err(KeyError(AlreadyExistsMsg(alias))))
      else
        match CreateCommand(title, alias, description, keywords, metadata, collection, pathExists)
        case Err(e) => Run(l1, Err(e))
        case Ok(com) =>
          var l2 := l1 + [com];
          Run(l2, RecordOutcome(respond(l2)))
  }

  /**
   * create_df_record: the alias defaults to the title and is cleaned; the
   * check for an existing record always runs, whatever check_for_existing
   * says, so that argument is not modelled.
   */
  method CreateDfRecord(gw: Gateway, title: string, alias: Option<string>, description: PyValue,
                        keywords: PyValue, metadata: PyValue, collection: PyValue,
                        pathExists: string -> bool) returns (r: Result<DataRecord>)
    modifies gw
    ensures var a := CleanAlias(if alias.Some? then alias.value else title);
            Run(gw.log, r) == CreateRun(gw.respond, old(gw.log), title, a, description, keywords,
                                        metadata, collection, pathExists)
  {
    var a := if alias.Some? then alias.value else title;
    a := GetCleanAlias(a);
    var found := RecordExists(gw, a);
    if found.Err? {
      return Err(found.error);
    }
    if found.value {
      return Err(KeyError("A data record with alias: " + a + " already exists in DataFed!"));
    }
    var options := DataUpdateCreate(CreateFields(a, description, keywords, metadata, collection), pathExists);
    if options.Err? {
      return Err(options.error);
    }
    var opts := Replace(options.value, "-A", "-D");
    opts := Strip(opts);
    var com := "data create \"" + title + "\" " + opts;
    var resp := gw.Command(com);
    r := RecordOutcome(resp);
  }

  /**
   * When the alias already names a record, create_df_record views it, raises
   * KeyError and sends no create command.
   */
  lemma ExistingRecordBlocksCreate(respond: seq<string> -> Response, log: seq<string>, title: string,
                                   alias: string, description: PyValue, keywords: PyValue,
                                   metadata: PyValue, collection: PyValue, pathExists: string -> bool)
    requires ExistsOutcome(respond(log + [ViewCommand(alias)])) == Ok(true)
    ensures CreateRun(respond, log, title, alias, description, keywords, metadata, collection, pathExists)
              == Run(log + [ViewCommand(alias)], Err(KeyError(AlreadyExistsMsg(alias))))
  {
  }

  /**
   * Whenever a create command is sent, it is the second of exactly two
   * commands, after the view of the same alias, and the result is the
   * reply to it read as a record.
   */
  lemma CreateSendsViewThenCreate(respond: seq<string> -> Response, log: seq<string>, title: string,
                                  alias: string, description: PyValue, keywords: PyValue,
                                  metadata: PyValue, collection: PyValue, pathExists: string -> bool)
    ensures var run := CreateRun(respond, log, title, alias, description, keywords, metadata, collection, pathExists);
            var c := CreateCommand(title, alias, description, keywords, metadata, collection, pathExists);
            && (run.log == log + [ViewCommand(alias)] || run.log == log + [ViewCommand(alias), c.value])
            && (|run.log| == |log| + 2 <==> ExistsOutcome(respond(log + [ViewCommand(alias)])) == Ok(false) && c.Ok?)
            && (|run.log| == |log| + 2 ==> run.result == RecordOutcome(respond(run.log)))
  {
    var c := CreateCommand(title, alias, description, keywords, metadata, collection, pathExists);
    if c.Ok? {
      assert log + [ViewCommand(alias)] + [c.value] == log + [ViewCommand(alias), c.value];
    }
  }

  /** The rewritten options never contain "-A": every occurrence became "-D". */
  lemma {:induction false} ReplaceLeavesNoDashA(s: string)
    ensures |Replace(s, "-A", "-D")| == |s|
    ensures !Contains(Replace(s, "-A", "-D"), "-A")
    ensures Replace(s, "-A", "-D") != [] ==>
              Replace(s, "-A", "-D")[0] == if StartsWith(s, "-A") then '-' else s[0]
    decreases |s|
  {
    var out := Replace(s, "-A", "-D");
    if |s| < 2 {
      assert out == s;
      assert !StartsWith(s, "-A");
      if s != [] {
        assert s[1..] == [] && !StartsWith(s[1..], "-A");
      }
    } else if s[..2] == "-A" {
      ReplaceLeavesNoDashA(s[2..]);
      var rest := Replace(s[2..], "-A", "-D");
      assert out == "-D" + rest;
      assert out[1..] == "D" + rest && out[1..][1..] == rest;
      assert !StartsWith(out, "-A") && !StartsWith(out[1..], "-A");
    } else {
      ReplaceLeavesNoDashA(s[1..]);
      var rest := Replace(s[1..], "-A", "-D");
      assert out == [s[0]] + rest && out[1..] == rest;
      if s[0] == '-' {
        assert s[1] != 'A';
        assert rest[0] == if StartsWith(s[1..], "-A") then '-' else s[1];
        assert !StartsWith(out, "-A");
      }
    }
  }

  /** The create command never carries a "-A" in its options. */
  lemma CreateOptionsHaveNoDashA(options: string)
    ensures !Contains(CreateOptions(options), "-A")
  {
    var t := Replace(options, "-A", "-D");
    ReplaceLeavesNoDashA(options);
    StripKeepsInfix(t);
    if Contains(Strip(t), "-A") {
      ContainsInfix(t, StripStart(t), StripStart(t) + |Strip(t)|, "-A");
    }
  }

  /** An infix of a string without sub does not contain sub either. */
  lemma {:induction false} ContainsInfix(s: string, i: nat, j: nat, sub: string)
    requires i <= j <= |s| && Contains(s[i..j], sub)
    ensures Contains(s, sub)
    decreases |s|
  {
    if i == 0 {
      ContainsPrefix(s, j, sub);
    } else {
      assert s[1..][i - 1..j - 1] == s[i..j];
      ContainsInfix(s[1..], i - 1, j - 1, sub);
    }
  }

  lemma {:induction false} ContainsPrefix(s: string, j: nat, sub: string)
    requires j <= |s| && Contains(s[..j], sub)
    ensures Contains(s, sub)
    decreases |s|
  {
    if StartsWith(s[..j], sub) {
      assert s[..j][..|sub|] == s[..|sub|];
    } else {
      assert s[..j] != [] && s[..j][1..] == s[1..][..j - 1];
      ContainsPrefix(s[1..], j - 1, sub);
    }
  }

  /**
   * A successful create command names the title, never has a -t flag, and
   * has a -a flag exactly when the cleaned alias is not empty.
   */
  lemma CreateFlags(alias: string, description: PyValue, keywords: PyValue, metadata: PyValue,
                    collection: PyValue, pathExists: string -> bool)
    requires alias == CleanAlias(alias)
    requires Flags(CreateFields(alias, description, keywords, metadata, collection), pathExists).Ok?
    ensures var fs := Flags(CreateFields(alias, description, keywords, metadata, collection), pathExists).value;
            !HasTag(fs, TitleFlag) && (HasTag(fs, AliasFlag) <==> alias != "")
  {
    var f := CreateFields(alias, description, keywords, metadata, collection);
    FlagsMatchArguments(f, pathExists, TitleFlag);
    FlagsMatchArguments(f, pathExists, AliasFlag);
  }

  // ---------------------------------------------------------------------
  // data_update
  // ---------------------------------------------------------------------

  const NothingToUpdate := ValueError("Nothing meaningful provided to update")

  function UpdateFields(title: PyValue, alias: PyValue, description: PyValue, keywords: PyValue, metadata: PyValue): Fields {
    Fields(title, alias, description, PyNone, keywords, metadata)
  }

  /** The "data update" command, or the reason none is sent. */
  function UpdateCommand(dataId: string, f: Fields, pathExists: string -> bool): Result<string> {
    match BuildOptions(f, pathExists)
    case Err(e) => Err(e)
    case Ok(options) =>
      if |Strip(options)| == 0 then Err(NothingToUpdate)
      else Ok(UpdateLine(Strip(options), dataId))
  }

  function UpdateLine(options: string, dataId: string): string {
    "data update " + options + " " + dataId
  }

  /** The calls of data_update: none when the command cannot be built, else the command and its reply. */
  function UpdateRun(respond: seq<string> -> Response, log: seq<string>, dataId: string, f: Fields,
                     pathExists: string -> bool): Run<DataRecord>
  {
    match UpdateCommand(dataId, f, pathExists)
    case Err(e) => Run(log, Err(e))
    case Ok(com) => Run(log + [com], RecordOutcome(respond(log + [com])))
  }

  /** data_update(data_id, title, alias, description, keywords, metadata) */
  method DataUpdate(gw: Gateway, dataId: string, title: PyValue, alias: PyValue, description: PyValue,
                    keywords: PyValue, metadata: PyValue, pathExists: string -> bool) returns (r: Result<DataRecord>)
    modifies gw
    ensures Run(gw.log, r) == UpdateRun(gw.respond, old(gw.log), dataId,
                                        UpdateFields(title, alias, description, keywords, metadata), pathExists)
  {
    var options := DataUpdateCreate(UpdateFields(title, alias, description, keywords, metadata), pathExists);
    if options.Err? {
      return Err(options.error);
    }
    var opts := Strip(options.value);
    if |opts| == 0 {
      return Err(ValueError("Nothing meaningful provided to update"));
    }
    var com := "data update " + opts + " " + dataId;
    assert com == UpdateLine(opts, dataId);
    var resp := gw.Command(com);
    r := RecordOutcome(resp);
  }

  /**
   * data_update refuses, before any gateway call, exactly when every argument
   * is acceptable but none of them supplies a flag.
   */
  lemma NothingToUpdateIff(dataId: string, f: Fields, pathExists: string -> bool)
    requires f.collection == PyNone
    ensures UpdateCommand(dataId, f, pathExists) == Err(NothingToUpdate) <==>
              !BadArgument(f, pathExists) && forall t :: !Supplied(f, t)
  {
    BuildFailsIffBadArgument(f, pathExists);
    var fl := Flags(f, pathExists);
    if fl.Ok? {
      StrippedOptionsEmptyIff(fl.value);
      forall t ensures HasTag(fl.value, t) <==> Supplied(f, t) {
        FlagsMatchArguments(f, pathExists, t);
      }
      if fl.value != [] {
        assert HasTag(fl.value, fl.value[0].tag);
      }
    } else {
      var rs := Stages(f, pathExists);
      StageErrorIsNotNothing(f, pathExists, FirstErr(rs));
    }
  }

  /** No stage of the builder fails with the "nothing to update" error. */
  lemma StageErrorIsNotNothing(f: Fields, pathExists: string -> bool, k: nat)
    requires k < 6 && Stages(f, pathExists)[k].Err?
    ensures Stages(f, pathExists)[k].error != NothingToUpdate
  {
    var e := Stages(f, pathExists)[k].error;
    var nothing := NothingToUpdate.msg;
    if k == 4 && IsSequence(f.keywords) {
      ValidateEachOutcome(f.keywords.items, "keywords");
      if e.ValueError? {
        DifferAtStart(e.msg, nothing);
      }
    } else if k == 0 || k == 1 || k == 3 {
      var name := if k == 0 then "title" else if k == 1 then "collection" else "description";
      assert e == NotStringError(name);
      assert e.msg == "\"" + (name + "\" must be a non-empty string");
      DifferAtStart(e.msg, nothing);
    } else if k == 2 {
      DifferAtStart(AliasError.msg, nothing);
    } else if k == 4 {
      DifferAtStart(KeywordsError.msg, nothing);
    } else if e.ValueError? {
      DifferAtStart(MetadataError.msg, nothing);
    }
  }

  /** An update sends at most one command, and the result is the reply to it read as a record. */
  lemma UpdateSendsAtMostOne(respond: seq<string> -> Response, log: seq<string>, dataId: string, f: Fields,
                             pathExists: string -> bool)
    ensures var run := UpdateRun(respond, log, dataId, f, pathExists);
            var c := UpdateCommand(dataId, f, pathExists);
            && (c.Err? ==> run == Run(log, Err(c.error)))
            && (c.Ok? ==> run.log == log + [c.value] && run.result == RecordOutcome(respond(run.log))
                          && StartsWith(c.value, "data update ") && EndsWith(c.value, " " + dataId))
  {
    var c := UpdateCommand(dataId, f, pathExists);
    if c.Ok? {
      var options := BuildOptions(f, pathExists).value;
      UpdateLineFrame(Strip(options), dataId);
    }
  }

  lemma UpdateLineFrame(options: string, dataId: string)
    ensures StartsWith(UpdateLine(options, dataId), "data update ")
    ensures EndsWith(UpdateLine(options, dataId), " " + dataId)
  {
    assert UpdateLine(options, dataId) == "data update " + options + (" " + dataId);
    ConcatFrame("data update ", options, " " + dataId);
  }
}
