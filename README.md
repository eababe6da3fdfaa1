# DataFed_Utils command layer, in Dafny

This project models the command layer of `datafed_utils.py`, a Python helper around the
DataFed data-management service. The layer does four things:

- it validates and trims string arguments;
- it turns titles into DataFed aliases;
- it builds the option text of `data create` / `data update`;
- it sends `ls`, `data view`, `data create`, `data update`, `coll add` / `coll remove`,
  `data put` and `ep default set` commands through the DataFed gateway (`df.command`),
  and it interprets the replies.

It also models the `.h5` file selection that starts a bulk upload.

The gateway is `DataFed.Gateway`, a class with two pieces of state:

- `log`, the commands issued so far;
- `respond`, a fixed script from the log to a response. A response is either a reply
  (kind, error text, payload) or a raised exception.

`Command` appends a command to the log and returns the script's answer for the new log.
An answer may therefore depend on everything sent before, as a real service's would.
Each operation that talks to the gateway is a method.

- The operations that send a single command (`Lifecycle.ListItems`, `Lifecycle.ViewRecord`,
  `Lifecycle.RecordExists`, `Move.SendCommand`) state the new log and the outcome of the
  reply directly.
- The others are proved against a function that returns a `Run`: the log the calls leave
  behind, plus the returned value or the exception.

Lemmas about the outcomes and those functions state:

- which commands are sent, in what order and how many;
- when nothing is sent at all.

Python values of mixed type are `Common.PyValue`. The exceptions are `Common.Error`, and a
result that may raise is `Result<T>`. Python's `str.strip` is modelled with Python's full
whitespace set.

Modules follow the parts of the source: `Validators`, `Alias`, `Builder`
(`_data_update_create`), `DataFed` (gateway and `DataRecord`), `Endpoint`
(`set_globus_endpoint`), `Lifecycle` (list, view, exists, create, update), `Move`, `Upload`,
and `Ingest`. `PyStrings` holds the `str` operations they use.

A few facts about the code that the model keeps as written:

- An alias that cleans to the empty string is not an error: the builder emits no `-a` flag
  (datafed_utils.py:320-331).
- `put_df_data` counts attempts with `attempts < 2` (datafed_utils.py:524-535), which
  evidently allows a second put after the endpoint is set. The `break` at line 536 ends the
  loop after the first pass, so no second put is sent (see Findings).
- `push_all_datasets_to_datafed` calls `check_and_insert` for each file in turn
  (datafed_utils.py:640-641) and does not catch exceptions, so a file that fails stops
  the upload. Only the file filter is modelled.

In `put_df_data` the `while` loop ends after its first pass, because of an unconditional
`break`. `Upload.PutDfData` writes that `break` as a `stopped` flag tested by the loop guard.

## Model

| member | source | states |
|---|---|---|
| Validators.ValidateSingleStringArg | datafed_utils.py:79-100 | succeeds exactly for a str that is not blank and returns it stripped (non-empty, trimmed, no longer than the input); a non-str is a TypeError "name should be a string", a blank str a ValueError "name should not be an empty string" |
| Validators.FirstInvalid | datafed_utils.py:128 | the position of the first element that is not a non-blank str: all before it are valid, the one at it is not |
| Validators.ValidateEach | datafed_utils.py:128 | on success the list keeps its length and order, and element k is the strip of input element k, which is a non-blank str |
| Validators.ValidateEachOutcome | datafed_utils.py:128 | the comprehension succeeds exactly when no element is invalid, and otherwise raises the error of the first invalid element |
| Validators.ValidatedElementsAreStrings | datafed_utils.py:128 | a list that validates holds only non-blank strs |
| Validators.ValidateListOfStrings | datafed_utils.py:103-128 | a str gives the one-element list of its strip (or fails as the single-string check does), a list or tuple is validated element by element, anything else is a TypeError "... should be a string or list / tuple of strings" |
| Validators.StringIsSingletonList | datafed_utils.py:122-128 | a bare str validates exactly as the one-element list and as the one-element tuple holding it, giving [strip(s)] |
| Validators.ListAndTupleAgree | datafed_utils.py:125-128 | a list and a tuple with the same elements validate alike |
| Validators.ValidateEachIdempotent | datafed_utils.py:97-128 | validating an already validated list again returns it unchanged |
| Alias.GetCleanAlias | datafed_utils.py:222-226 | the loop that rebinds the title once per forbidden character, then replaces spaces, truncates to 60, lower-cases and strips, computes CleanAlias(title) |
| Alias.CleanAliasIsAlias | datafed_utils.py:222-226 | every clean alias is at most 60 characters, trimmed, has no upper-case letter and no forbidden character or space |
| Alias.CleanAliasOfAlias | datafed_utils.py:222-226 | cleaning a well-formed alias returns it unchanged |
| Alias.CleanAliasIdempotent | datafed_utils.py:222-226 | cleaning twice equals cleaning once |
| Alias.BannedSpaceIsPlainSpace | datafed_utils.py:223-226 | the only whitespace character the replacement step turns into '_' is the plain space |
| Alias.CleanAliasEmptyIff | datafed_utils.py:222-226 | the alias is empty exactly when the first 60 characters of the title are all whitespace other than the plain space |
| Builder.TextOption | datafed_utils.py:304-339 | the title (304-310), collection (312-318) and description (333-339) branches append the rendering of their stage: " -t " + stripped title, " -c " + stripped collection, and the stripped description in double quotes after " -d "; nothing for None or blank, a ValueError naming the argument for any other type |
| Builder.AliasOption | datafed_utils.py:320-331 | the alias branch appends ' -a "' + clean alias + '"', nothing for None or an alias that cleans to empty, ValueError for a non-str |
| Builder.KeywordsOption | datafed_utils.py:341-347 | the keywords branch appends " -k" + the validated keywords joined by ",", nothing for None or an empty list; a bad element raises the validator's error and a non-list, non-tuple (a bare str included) a ValueError |
| Builder.MetadataOption | datafed_utils.py:349-359 | the metadata branch appends " -f " + path for an existing path (FileNotFoundError otherwise) and " -m '" + JSON + "'" for a dict; any other non-None value is a ValueError |
| Builder.DataUpdateCreate | datafed_utils.py:297-361 | the option text built by successive appends equals the rendering of the flag list, or the exception of the first failing field |
| Builder.BuildOptionsChain | datafed_utils.py:302-361 | the rendered flag list equals the six field fragments appended in the order the code reads the fields, the first exception winning |
| Builder.CombineSpec | datafed_utils.py:297-361 | the fields are read in order: the first failing one decides the exception, otherwise the flags of all fields in order |
| Builder.StageShape | datafed_utils.py:304-359 | each field contributes at most one flag, of its own position in the order |
| Builder.StageHasTag | datafed_utils.py:304-359 | a field's flag is present exactly when that argument is supplied |
| Builder.FlagsMatchArguments | datafed_utils.py:304-359 | a successful build has a flag exactly for the supplied arguments: non-blank title, collection or description, an alias that does not clean to empty, a non-empty keyword list, a metadata path or a dict |
| Builder.FlagsInOrder | datafed_utils.py:302-361 | flags appear strictly in the order -t, -c, -a, -d, -k, then -f or -m, each at most once |
| Builder.BuildFailsIffBadArgument | datafed_utils.py:308-359 | the builder raises exactly when some field has the wrong type, a keyword is not a non-blank str or the metadata path does not exist, and then raises the first such field's exception |
| Builder.NoArgumentsNoOptions | datafed_utils.py:302-361 | with every argument None the option text is "" |
| Builder.RenderAllShape | datafed_utils.py:307-355 | the rendering is empty exactly when there are no flags, and otherwise starts with a space, a dash and the first flag's letter |
| Builder.StrippedOptionsEmptyIff | datafed_utils.py:491-494 | the stripped option text is empty exactly when no flag was emitted |
| Builder.CleanedAliasPassesThrough | datafed_utils.py:391-397 | handing the builder an alias that is already clean emits exactly that alias, or nothing when it is empty |
| DataFed.Gateway.constructor | datafed_utils.py:215 | a new gateway has an empty log and the given script |
| DataFed.Gateway.Command | datafed_utils.py:215 | a command is appended to the log and the response is the script's answer for the new log |
| DataFed.RecordFromReply | datafed_utils.py:257-279 | the record exists exactly when the reply has a first data element, and its fields are that element's; otherwise the reply is malformed |
| DataFed.RecordOutcome | datafed_utils.py:409-414 | a RecordDataReply becomes its record, any other kind a ValueError with the reply's error text, and a raised exception passes through; a record comes back only from a RecordDataReply |
| Endpoint.AnyPrefixIff | datafed_utils.py:148-150 | the any() test holds exactly when the hostname starts with one of the prefixes |
| Endpoint.ResolveEndpoint | datafed_utils.py:139-157 | a tabled host gets its table entry; the lookup succeeds exactly for tabled hosts and CADES condo nodes; otherwise a ValueError naming the host |
| Endpoint.ResolvedIsKnown | datafed_utils.py:139-153 | a resolved endpoint is one of the two table entries or the CADES endpoint |
| Endpoint.CadesFallback | datafed_utils.py:146-153 | off the table, a host resolves to the CADES endpoint exactly when it starts with or-slurm-login, or-condo-login or or-slurm-c and ends with .ornl.gov |
| Endpoint.TableHostsAreNotCades | datafed_utils.py:139-153 | no tabled host is a condo node, so the table and the fallback never disagree |
| Endpoint.EndpointRun | datafed_utils.py:155-164 | an unknown host sends nothing and raises; otherwise exactly "ep default set " + uuid is sent and the result fails exactly when the gateway raises |
| Endpoint.SetGlobusEndpoint | datafed_utils.py:133-164 | the method's log and result are those of EndpointRun |
| Endpoint.EndpointSendsAtMostOne | datafed_utils.py:155-164 | at most one command is appended, and one is appended exactly when the host resolves |
| Lifecycle.ListOutcome | datafed_utils.py:215-219 | only a ListingReply yields a listing; any other kind is a KeyError with the reply's error text; an exception passes through |
| Lifecycle.ListItems | datafed_utils.py:189-219 | exactly the listing command is appended to the log and the result is the reply read as a listing |
| Lifecycle.IgnoredArgumentsActAsNone | datafed_utils.py:197-206 | an offset or count that is not an int greater than zero changes nothing in the command, as if it were None |
| Lifecycle.PlainListing | datafed_utils.py:196-210 | without offset and count the command is "ls " + id |
| Lifecycle.ListCommandCarriesNumbers | datafed_utils.py:197-203 | positive offset n and count m give "ls -O n -C m id", and the decimal texts read back as n and m |
| Lifecycle.ListCommandFrame | datafed_utils.py:196-210 | every listing command starts with "ls" and ends with a space and the id |
| Lifecycle.ViewOutcome | datafed_utils.py:237-242 | a non-RecordDataReply gives None; a record comes back only as the record of the reply |
| Lifecycle.ViewRecord | datafed_utils.py:229-242 | exactly "data view " + id is appended and the result is the reply read by ViewOutcome |
| Lifecycle.ExistsCharacterised | datafed_utils.py:245-252 | a record exists exactly when the view is answered with a RecordDataReply carrying data, and does not exist exactly when it is answered with another kind |
| Lifecycle.RecordExists | datafed_utils.py:245-252 | exactly the view command is appended and the result is ExistsOutcome of its reply |
| Lifecycle.CreateDfRecord | datafed_utils.py:364-414 | the method cleans the alias (the title when none is given) and then does what CreateRun says: view, maybe KeyError, build, rewrite -A, strip, create, read the reply |
| Lifecycle.ExistingRecordBlocksCreate | datafed_utils.py:393-395 | when the alias names a record, only the view is sent and the result is KeyError "A data record with alias: ... already exists in DataFed!" |
| Lifecycle.CreateSendsViewThenCreate | datafed_utils.py:393-414 | a create sends the view, then at most the create command; the create is sent exactly when no record exists and the options build, and the result is then the reply read as a record |
| Lifecycle.ReplaceLeavesNoDashA | datafed_utils.py:402 | replacing "-A" by "-D" keeps the length and leaves no "-A" anywhere |
| Lifecycle.CreateOptionsHaveNoDashA | datafed_utils.py:402-403 | the rewritten and stripped create options contain no "-A" |
| Lifecycle.CreateFlags | datafed_utils.py:397-400 | the create options never carry -t, and carry -a exactly when the clean alias is not empty |
| Lifecycle.DataUpdate | datafed_utils.py:452-506 | the method's log and result are those of UpdateRun: no command if the options fail or are empty after strip, else "data update " + options + " " + id and the reply read as a record |
| Lifecycle.NothingToUpdateIff | datafed_utils.py:482-494 | the update is refused with "Nothing meaningful provided to update" exactly when every argument is acceptable but none supplies a flag |
| Lifecycle.StageErrorIsNotNothing | datafed_utils.py:491-494 | no argument error of the builder is the "nothing to update" error |
| Lifecycle.UpdateSendsAtMostOne | datafed_utils.py:491-506 | a refused update sends nothing; otherwise exactly one command, starting "data update " and ending with the id, whose reply gives the result |
| Lifecycle.UpdateLineFrame | datafed_utils.py:496 | the update command starts with "data update " and ends with a space and the id |
| Move.BatchesFlatten | datafed_utils.py:442-444 | the batches put back together are the ids, in order |
| Move.BatchesShape | datafed_utils.py:442-444 | there are ceil(n / 10) batches and batch k is ids[10k : 10k + 10] |
| Move.BatchesAreStrs | datafed_utils.py:444 | every batch of a list of strs is a list of strs |
| Move.SendOutcome | datafed_utils.py:423-434 | a response is kept exactly when it is a ListingReply or its error text contains "already linked to " or "does not exist"; any other reply is a ValueError |
| Move.SendCommand | datafed_utils.py:420-434 | exactly the command is appended and the result is SendOutcome of its reply |
| Move.MoveToCollection | datafed_utils.py:419-449 | the batch loop's log and result are those of MoveRun: a str becomes a one-element list, other non-sequences are a TypeError, and per batch the add then the remove command |
| Move.Plan | datafed_utils.py:443-448 | the planned commands are two per batch |
| Move.PlanPairs | datafed_utils.py:443-448 | planned command 2k is "coll add " + batch k joined by spaces + " " + dest, and 2k + 1 the matching "coll remove ... source" |
| Move.FirstFatal | datafed_utils.py:424-433 | the position of the first planned command whose response is not tolerated: every response before it is tolerated, the one at it is not, and it is the plan length exactly when every response is tolerated |
| Move.FirstFatalUnique | datafed_utils.py:424-433 | any position before which every response is tolerated and at which one is not (or the end of the plan) is FirstFatal, so the first fatal command is determined |
| Move.MoveIsPlanRun | datafed_utils.py:443-448 | a move over batches of strs sends the plan's commands one after another |
| Move.PlanRunShape | datafed_utils.py:423-434 | sending a plan stops right after the first command that is not tolerated and fails with its error; otherwise every command is sent and the last reply returned |
| Move.MoveFollowsPlan | datafed_utils.py:443-449 | a move sends the planned commands in order up to and including the first one not tolerated, failing with its error, or the whole plan, returning the last reply |
| Move.MoveSendsTwoPerBatch | datafed_utils.py:442-448 | when the response to every planned command is tolerated, 2 * ceil(n / 10) commands are sent and the move succeeds |
| Move.EmptyIdsFail | datafed_utils.py:443-449 | an empty list or tuple sends nothing and fails reading the unassigned mesg |
| Move.SingleIdIsOneBatch | datafed_utils.py:436-437 | a single str id moves exactly as the one-element list, with one add and one remove |
| Move.NonStringIdFails | datafed_utils.py:444 | an id that is not a str makes the move fail |
| Upload.TransferOutcome | datafed_utils.py:541-549 | the reply is returned exactly when it carries a first transfer and, with wait, its status is 3; a bad status is a ValueError naming the record |
| Upload.PutDfData | datafed_utils.py:511-554 | the method's log and result are those of PutRun: one put, on "No endpoint set" the endpoint command and then a ValueError, other exceptions passed on, an answer checked by TransferOutcome |
| Upload.PutCallsGatewayOnce | datafed_utils.py:527-536 | exactly one put command is sent; the only other is the endpoint command, sent exactly when the put raised "No endpoint set" and the host is known |
| Upload.NoEndpointNeverRetries | datafed_utils.py:527-539 | after "No endpoint set" the upload always fails, with "Something went wrong when putting data for record: ..." when the endpoint was set |
| Upload.OtherExceptionsPropagate | datafed_utils.py:530-534 | any other exception from the put passes through and nothing else is sent |
| Upload.AnsweredPutChecksTransfer | datafed_utils.py:541-549 | an answered put returns its reply exactly when the reply has a first transfer and, with wait, its status is 3 |
| Upload.PutCommandShape | datafed_utils.py:512-518 | the command is "data put", " --wait" when waiting, a space and the record id, then the path in double quotes |
| Upload.PutDfDataRetrying | datafed_utils.py:527-536 | the corrected loop's log and result are those of RetryRun: at most two puts, the second only after "No endpoint set" and a successful endpoint command |
| Upload.RetryingPutsAgain | datafed_utils.py:527-536 | in the corrected loop, after "No endpoint set" and a successful endpoint command, the put is sent again and its reply decides the result |
| Upload.RetryAgreesWhenNoRetryIsNeeded | datafed_utils.py:527-536 | when the first put does not raise "No endpoint set", the corrected loop behaves exactly as the code as written |
| Upload.RetryExtendsLog | datafed_utils.py:524-536 | from any attempt on, the corrected loop keeps the log it started with as a prefix and adds at most a put and an endpoint command per remaining attempt |
| Upload.RetryPutsAtMostTwice | datafed_utils.py:524-536 | the `attempts < 2` counter bounds the corrected loop: from attempt `attempts` on it sends the put at most `2 - attempts` times, so at most twice in all |
| Upload.NoRetryCounterexample | datafed_utils.py:536 | on host mac109728 with a first put raising "No endpoint set" and later calls answered with status 3, the code as written fails while the corrected loop returns the reply |
| Ingest.PathJoin | datafed_utils.py:623 | the joined path ends with the name |
| Ingest.H5FilePaths | datafed_utils.py:619-623 | the loop collects H5Paths(root, entries) |
| Ingest.H5NamesMembers | datafed_utils.py:621-623 | an entry is selected exactly when it is listed and ends in ".h5" |
| Ingest.H5PathsAreJoinedNames | datafed_utils.py:621-623 | the paths are the selected entries, in listing order, each joined to the root |
| Ingest.H5PathsEndInH5 | datafed_utils.py:621-623 | every selected path ends in ".h5" and there are no more paths than entries |
| Ingest.JoinUnderDirectory | datafed_utils.py:623 | under a root ending in "/" a relative name is appended as is |
| PyStrings.StripKeepsInfix | datafed_utils.py:97 | strip keeps an infix of its input and drops only whitespace on either side |
| PyStrings.StripEmptyIff | datafed_utils.py:97-98 | a string strips to "" exactly when it is all whitespace |
| PyStrings.StripIdempotent | datafed_utils.py:97 | stripping twice equals stripping once |
| PyStrings.ParseNatToString | datafed_utils.py:198 | the '{}' text of a positive count reads back as that number |

## Left out

- `format_quantity`, `format_size` and `DataRecord.__repr__`: float division, `np.round` and display formatting.
- `datafed_init` and `df.init`: authentication inside the foreign DataFed client.
- The inside of `df.command`: DataFed.Gateway replays a script chosen by the caller.
- `socket.gethostname`: the hostname is a parameter.
- `os.path.exists`: an oracle parameter `pathExists`.
- `os.listdir`: the listing is a parameter.
- `json.dumps`: a dict argument is represented by its JSON text.
- `json.loads` and `datetime.fromtimestamp`: DataRecord keeps the metadata text and the epoch integers. This drops an error path. A metadata text that `json.loads` rejects (datafed_utils.py:279) makes `DataRecord`, and so `view_record`, `record_exists`, `create_df_record` and `data_update`, raise. `DataFed.RecordFromReply` succeeds on such a reply. The `datetime.fromtimestamp` calls (datafed_utils.py:268-270) drop a second error path: an out-of-range `ct`, `ut` or `dt` raises OverflowError or OSError there, and the model keeps any integer.
- The TypeError and ValueError of `DataRecord.__init__` for a message that is not a two-element tuple: every gateway response here is such a pair.
- `create_datafed_record` and `check_and_insert`: file-system glue around the modelled operations. As written, `create_datafed_record` passes `md_json_path=` to `create_df_record`, which does not accept it.
- The parallel branch of `push_all_datasets_to_datafed` (joblib, `cpu_count`) and its per-file calls: concurrency and I/O. Only the file filter is modelled.
- `print` and `warn`: no output is modelled. Warnings do not change results.
- Parameters that are accepted but never used: `raw_data_file`, `extension`, `project`, `repository`, the dependency arguments and `check_for_existing`.
- `verbose` is used only to decide whether to print (for example datafed_utils.py:136-161, 233, 323, 407). Output is not modelled.
- Some arguments are typed as strings, so the model has no case for other types. These are the id of `list_items`, `data_update` and `put_df_data`, the `alias_or_id` of `view_record` and `record_exists` (datafed_utils.py:229, 245), the path, and the collections of `move_to_collection`. The code only concatenates them into commands, and Python raises TypeError at the concatenation for any other type.
- `put_df_data`'s `wait` is a `bool` in the model. Python tests it for truthiness (datafed_utils.py:513, 547), so any value works there.
- An exception raised by the gateway always carries a message in the model. In Python `excep.args[0]` (datafed_utils.py:531) raises IndexError for an exception with no arguments.
- Lifecycle.CreateDfRecord: the title and the alias are typed as strings. In Python:
  - a non-str alias, or a non-str title when no alias is given, raises AttributeError in `get_clean_alias` (datafed_utils.py:224, called at 391) before anything is sent;
  - a non-str title with a str alias raises TypeError at datafed_utils.py:405, after the view command has been sent.
- Ingest.PathJoin: models `posixpath.join`. On Windows, for example the host DESKTOP-LMIGRMD in the endpoint table (datafed_utils.py:140), `os.path.join` is `ntpath.join`: it separates with a backslash and treats drive letters and both slashes specially. The model does not capture that.
- Error texts built from arbitrary values keep only their fixed part. This covers the "Your argument ... was ignored" suffixes, the reply tuple in "Something went wrong: ...", and the text of the TypeError raised by `' '.join`.
- Alias.GetCleanAlias: lower-cases ASCII letters only, because Python's Unicode `lower()` can change the length of a string (U+0130 becomes two characters) and is not modelled.
- Builder.DataUpdateCreate: the note printed when cleaning changed the alias is output only and is not modelled.

## Findings

| source | as written | input that shows it | evidently intended | confidence | as-written member | corrected member |
|---|---|---|---|---|---|---|
| datafed_utils.py:536 | the `break` at the end of the loop body runs after every call, so after "No endpoint set" and a successful endpoint command the loop ends with `message` None and the upload raises | host mac109728; the first `data put` raises "No endpoint set" and every later call is answered with a transfer of status 3 | put once more after setting the endpoint, with `break` only after a reply arrives | not executed | Upload.PutDfData (Upload.NoRetryCounterexample) | Upload.PutDfDataRetrying (Upload.RetryingPutsAgain) |
