# NickelDBus in Dafny

NickelDBus is a plugin for Kobo e-readers. It bridges Kobo's proprietary
`libnickel` and a D-Bus service with methods and signals. Around the symbol
look-ups and widget plumbing sit several small, sequential pieces of logic.
This project models those pieces and proves properties of them:

- **`ndb-cli`, the Go command-line tool** (`GoCli`, `DBusValues`, `GoStrconv`):
  - coercing a command-line token to a D-Bus basic value, with Go's `strconv` rules written out;
  - the overload scan of `callMethod`, modelled as written, next to a reference overload choice;
  - the `signals` set;
  - the interface search of `initDBus`;
  - the signal check, short-name filter and timer of `waitForSignal`, as a function over a finite list of notifications followed by a silence, with the timer's 64-bit duration written out.
- **The two Qt command-line tools** (`QtCli` for `src/cli/ndb_cli.cc`, `LegacyCli` for `src/cli/nickel_dbus_cli.cc`, sharing `QtMeta` and `Join`):
  - method look-up by name, kind and parameter count;
  - token conversion;
  - the `callMethod` ladder of the earlier tool and its signal type filter;
  - the quit-when-both-done rule over `methodComplete` and `signalComplete`.
- **The service object** (`Service`, for `src/ndb/NDBDbus.cc` and its earlier twin `src/ndb/ndb.cc`):
  - action-word validation;
  - the `action:setting` string;
  - the browser argument, with a round trip;
  - toast bounds;
  - the layout names;
  - the class-details suffix check;
  - connected-signal names;
  - the view-change debounce;
  - the signals a line-edit dialog emits, in both versions.
- **The confirmation-dialog helper** (`ConfirmDialog`, `src/ndb/NDBCfmDlg.cc`): a class whose methods update `active`, `currActiveType`, the dialog and the line edit, with every error result.
- **The metadata helpers** (`Metadata` for `src/ndb/NDBMetadata.cc`, `VolContent` for `src/ndb/NDBVolContent.cc`, `Startup` for their shared start-up ladder):
  - attribute resolution;
  - the per-key type check of `setMetadata`, with partial application;
  - the book-list filters;
  - the content/volume map merge.
- **The version check at plug-in start** (`SemverFile`, `src/init.cc`): `ndb_extract_semver_from_fn` on a `char` array, in place, the directory-entry filter, and the loop that stops at the first unparsable or greater version.
- **The shell-wrapper generator** (`ShellWrappers`, `tools/dbusxml2sh.py`):
  - type-code names;
  - the method table with its overload argument lists;
  - the text of the generated script.

libnickel, D-Bus, Qt's reflective calls and the clock are not modelled. Each of them becomes a parameter holding its outcome:

- a flag saying whether a symbol was found;
- a reply, or a parse that may fail;
- the stream of notifications that arrive, and the silence after them.

`Wrappers` (`Option`, `Result`), `Text` (prefixes, suffixes, `strchr`/`strrchr`, ASCII lower-casing) and `Decimal` (digit strings) are shared helpers.

## Model

| member | source | states |
|---|---|---|
| DBusValues.StrToDBusType | ndb-cli/ndb_cli.go:179-228 | a success is a value of the Go type and range the code demands; a failure is "unsupported" exactly for codes outside `y b n q i u x t h s`, else a conversion failure naming the token |
| DBusValues.CoerceStringIsIdentity | ndb-cli/ndb_cli.go:222-223 | a string code passes every token through unchanged |
| DBusValues.CoerceDoubleUnsupported | ndb-cli/ndb_cli.go:224-226 | `d` is never accepted: the double type falls into the unsupported case |
| DBusValues.CoerceIntegerRoundTrip | ndb-cli/ndb_cli.go:186-217 | for every integer code, the decimal rendering of a number is accepted exactly when the number fits the code's width and signedness, and it gives back that number |
| DBusValues.CoerceBoolean | ndb-cli/ndb_cli.go:190-193 | `b` accepts exactly Go's `ParseBool` spellings, with their value |
| DBusValues.CoerceByteEdges | ndb-cli/ndb_cli.go:186-189 | 255 is a byte, 256 is not, and -1 is not a `uint16` |
| GoStrconv.ParseUint | ndb-cli/ndb_cli.go:187 | an accepted token is all digits, non-empty, and its value is below 2 to the width |
| GoStrconv.ParseInt | ndb-cli/ndb_cli.go:195 | an accepted value lies in the signed range of the width, and a negative one was written with `-` |
| GoStrconv.ParseUintFormat | ndb-cli/ndb_cli.go:187-188 | the decimal rendering of n parses back to n exactly when n fits the width |
| GoStrconv.ParseUintRejectsSign | ndb-cli/ndb_cli.go:187-188 | the unsigned parser refuses every token that starts with a sign |
| GoStrconv.ParseUintLeadingZero | ndb-cli/ndb_cli.go:187-188 | a leading zero changes neither acceptance nor value |
| GoStrconv.ParseIntFormat | ndb-cli/ndb_cli.go:195-196 | the rendering of i, sign included, parses back to i exactly when i fits the signed width |
| GoStrconv.ParseIntPlus | ndb-cli/ndb_cli.go:195-196 | an explicit `+` changes nothing |
| GoStrconv.ParseBoolFormat | ndb-cli/ndb_cli.go:191-192 | `ParseBool` reads back `FormatBool`, and also the one-letter and digit spellings |
| GoCli.SignalSet.Set | ndb-cli/ndb_cli.go:22-25 | the name is added to the set; adding a name already present changes nothing |
| GoCli.SignalSet.Exists | ndb-cli/ndb_cli.go:27-30 | true exactly for names that were added |
| GoCli.LastInterfaceIndex | ndb-cli/ndb_cli.go:51-60 | -1 exactly when no interface has the name; otherwise an index of a matching interface, with no match after it |
| GoCli.CountInArgs | ndb-cli/ndb_cli.go:69-74 | the loop counts exactly the `in` arguments |
| GoCli.CoerceInArgs | ndb-cli/ndb_cli.go:76-90 | the loop coerces the `in` arguments left to right against the tokens and stops at the first failure, agreeing with the all-or-nothing coercion |
| GoCli.CoerceAllPointwise | ndb-cli/ndb_cli.go:77-88 | a successful coercion holds, at every position, the value `strToDBusType` gives that token under that type; a failed one has a position that fails |
| GoCli.ScanOverloads | ndb-cli/ndb_cli.go:64-100 | the loop over the methods leaves `convArgs`, `methodFound` and `invalidArgs` as the scan over the method list defines them |
| GoCli.LastCandidate | ndb-cli/ndb_cli.go:67-75 | the last method whose name and `in` count match, or -1 when none does |
| GoCli.ScanInvalidIffLastCandidateFails | ndb-cli/ndb_cli.go:91-96 | "invalid arguments" is set exactly when the last candidate fails to coerce; earlier candidates do not matter |
| GoCli.ScanFoundIffSomeCandidateCoerces | ndb-cli/ndb_cli.go:97 | a method is found exactly when some candidate coerces, wherever it stands |
| GoCli.ScanSingleCandidate | ndb-cli/ndb_cli.go:67-100 | with one candidate, the scan sends that candidate's values or reports invalid arguments |
| GoCli.ScanNoCandidate | ndb-cli/ndb_cli.go:104-105 | without a candidate nothing is found, nothing is collected, and no invalid-arguments error is raised |
| GoCli.ScanDuplicateOverloadDoublesArguments | ndb-cli/ndb_cli.go:87 | two same-arity candidates that both coerce leave both value lists in `convArgs` |
| GoCli.LastFailure | ndb-cli/ndb_cli.go:91-96 | the index of the last candidate whose arguments do not coerce, with none failing after it, or -1 |
| GoCli.StepConvArgs | ndb-cli/ndb_cli.go:76-96 | one turn of the outer loop empties `convArgs` for a failing candidate, and otherwise appends what the method adds |
| GoCli.ScanCollectsAfter | ndb-cli/ndb_cli.go:67-100 | after a failing candidate with none failing later, `convArgs` is the concatenation, in list order, of the values of the candidates after it that coerce |
| GoCli.ScanCollectsAfterLastFailure | ndb-cli/ndb_cli.go:67-100 | for every method list, `convArgs` keeps growing across coercing candidates and is emptied by a failing one: it is the in-order concatenation of the coerced values of the candidates after the last failure |
| GoCli.SelectOverload | ndb-cli/ndb_cli.go:67-106 | reference overload choice: success is the coerced values of some candidate, one per token; "no candidate" exactly when no method matches name and count |
| GoCli.SelectOverloadFirst | ndb-cli/ndb_cli.go:67-106 | the reference choice takes the first candidate that coerces: every method before it is not a candidate or fails to coerce |
| GoCli.SelectOverloadNoCoercion | ndb-cli/ndb_cli.go:101-103 | the reference choice reports invalid arguments only when no candidate coerces |
| GoCli.SelectSingleCandidate | ndb-cli/ndb_cli.go:67-100 | with one candidate the reference choice takes its values, or fails when they do not coerce |
| GoCli.ScanAgreesWithSelectOnSingleCandidate | ndb-cli/ndb_cli.go:67-106 | with one candidate the scan as written and the reference choice agree |
| GoCli.SelectOverloadDuplicate | ndb-cli/ndb_cli.go:67-100 | on the duplicate-overload list the reference choice sends the one value once |
| GoCli.ShortName | ndb-cli/ndb_cli.go:158 | the result is the dot-free suffix of the member after its last `.`, or the whole member when it has no dot |
| GoCli.ShortNameOfQualified | ndb-cli/ndb_cli.go:158 | `iface.signal` is filtered as `signal` |
| GoCli.DeclaredNames | ndb-cli/ndb_cli.go:133 | the set holds exactly the names of the declared signals |
| GoCli.DeclaredCountDistinct | ndb-cli/ndb_cli.go:132-137 | when declared names are distinct, the count is the number of requested names that are declared |
| GoCli.SignalCheckIffDeclared | ndb-cli/ndb_cli.go:138-141 | when declared names are distinct, the wait passes the check exactly when every requested name is declared |
| GoCli.SignalCheckCountsDuplicates | ndb-cli/ndb_cli.go:132-141 | a signal declared twice can stand in for an undeclared request |
| GoCli.WrapInt64 | ndb-cli/ndb_cli.go:151 | Go's `int64` product: a value in the signed 64-bit range congruent to the exact product modulo 2^64 |
| GoCli.Await | ndb-cli/ndb_cli.go:155-168 | the wait ends in a match, a timeout reporting the `sigTimeout` given, or goes on |
| GoCli.AwaitMatchedArrived | ndb-cli/ndb_cli.go:157-163 | a match is a requested short name that arrived |
| GoCli.AwaitTimedOutFired | ndb-cli/ndb_cli.go:164-166 | a timeout means the timer fired, before some notification or in the silence after the last one |
| GoCli.AwaitWaitingIff | ndb-cli/ndb_cli.go:155-168 | the wait goes on exactly when no requested short name arrived and the timer never fired |
| GoCli.AwaitMatchesFirstRequested | ndb-cli/ndb_cli.go:155-163 | the first requested short name to arrive before the timer fires ends the wait, and earlier notifications are ignored |
| GoCli.TimerDurationInRange | ndb-cli/ndb_cli.go:151-154 | within plus or minus 9223372036 seconds the duration is the timeout in nanoseconds, and 0 stands for the largest `int64` duration |
| GoCli.SilentWaitTimesOut | ndb-cli/ndb_cli.go:151-166 | with a positive timeout and no notification, the wait times out once that many seconds pass, and goes on before that |
| GoCli.NegativeTimeoutFiresAtOnce | ndb-cli/ndb_cli.go:151-166 | a negative timeout gives a negative duration, and the wait times out at once whatever arrives |
| GoCli.OverflowingTimeoutFiresAtOnce | ndb-cli/ndb_cli.go:151-166 | 9223372037 seconds overflow `int64` to a negative duration, so that timeout also fires at once |
| GoCli.CallOnlyAfterSuccessfulCoercion | ndb-cli/ndb_cli.go:101-113 | the remote call is made exactly when the last candidate exists and coerces |
| GoCli.CallSendsCollected | ndb-cli/ndb_cli.go:67-113 | a call sends the concatenated values of the coercing candidates after the last failing one; without a call nothing is sent |
| GoCli.CallMadeDespiteUndeclaredSignal | ndb-cli/ndb_cli.go:110-126 | an undeclared signal does not stop the call; the wait's error comes after it |
| GoCli.DBusCli.InitDBus | ndb-cli/ndb_cli.go:40-62 | connection and introspection errors come first; then the index is the last interface with the name, or "not in list" with index -1 |
| GoCli.DBusCli.WaitForSignal | ndb-cli/ndb_cli.go:130-169 | the outcome is the specified wait: signal check, subscription, then the notification filter |
| GoCli.DBusCli.CallMethod | ndb-cli/ndb_cli.go:63-129 | the report is the specified call: the scan, its two errors, the call and the wait |
| QtMeta.FirstInvokable | src/cli/ndb_cli.cc:37-45 | -1 exactly when no method at or after the offset is a method or slot with the name and argument count; otherwise the first such index |
| QtMeta.ToLowerIdempotent | src/cli/ndb_cli.cc:58-60 | lower-casing twice is lower-casing once |
| QtMeta.QtBoolIgnoresCase | src/cli/ndb_cli.cc:55-64 | the boolean reading ignores case, and accepts exactly `true`, `t`, `false` and `f` |
| QtMeta.QtBoolAgreesWithGo | src/cli/ndb_cli.cc:58-63 | where both the Qt and the Go tools accept a token they agree |
| QtMeta.QtBoolDiffersFromGo | src/cli/ndb_cli.cc:58-63 | each tool accepts tokens the other refuses: `tRuE` only Qt, `1` only Go |
| QtCli.ConvertParam | src/cli/ndb_cli.cc:48-75 | a string always converts to itself; a bool by the case-free reading; an int by `toInt`; every other type fails |
| QtCli.ConvertParams | src/cli/ndb_cli.cc:126-133 | a failure names the first parameter that does not convert, all before it converting; a success converts every parameter |
| QtCli.ConvertArgs | src/cli/ndb_cli.cc:126-133 | the conversion loop yields exactly the all-or-first-failure conversion of the parameter list |
| QtCli.ConvertFailureExtends | src/cli/ndb_cli.cc:126-132 | a failure within a prefix of the parameters is the failure of the whole list |
| QtCli.ConvertReportsFirstFailure | src/cli/ndb_cli.cc:129-131 | the reported parameter is the first one that does not convert |
| QtCli.NdbCli.GetMethodIndex | src/cli/ndb_cli.cc:35-46 | the loop returns the first invokable index at or after the offset, or -1 |
| QtCli.NdbCli.CallMethodInvoke | src/cli/ndb_cli.cc:114-163 | each failure in order with its message: no method, more than 10 parameters, a parameter that does not convert, a failed call; 0 only when all pass |
| QtCli.NdbCli.HandleSignal | src/cli/ndb_cli.cc:214-229 | unrequested names change nothing; a requested one follows the join rule |
| QtCli.NdbCli.HandleTimeout | src/cli/ndb_cli.cc:231-234 | exit with status 1 |
| QtCli.NdbCli.StartMethod | src/cli/ndb_cli.cc:295-308 | a failed call exits with 1; a successful one follows the join rule |
| QtCli.NdbCli.Start | src/cli/ndb_cli.cc:283-312 | an invalid proxy exits with 1; printing the API quits; then the method part; the timer is armed for a positive timeout |
| Join.QuitIffBothDone | src/cli/ndb_cli.cc:295-306 | in every possible run, quitting has been requested exactly when the run holds everything the tool waits for; until then the two flags record what happened |
| Join.FirstQuitCompletesWait | src/cli/ndb_cli.cc:214-229 | the first quit request comes at exactly the event that completes what the tool waits for |
| Join.EverySignalQuitsWithoutMethod | src/cli/ndb_cli.cc:223-224 | quitting is requested again on later events: with no method, every requested signal asks to quit |
| LegacyCli.StrArgs | src/cli/nickel_dbus_cli.cc:60-141 | the k-th argument sent is the k-th token, as a string |
| LegacyCli.Ladder | src/cli/nickel_dbus_cli.cc:68-140 | a call goes to the named slot with arguments faithful to the tokens; "unknown method" exactly for names outside the ladder; the timestamp error exactly for a toast whose first token is no int; the modal error exactly for a browser whose first token is no bool |
| LegacyCli.LadderSendsEveryToken | src/cli/nickel_dbus_cli.cc:68-140 | at an arity the ladder serves, every token is sent, in order, and only the two conversion errors remain |
| LegacyCli.ConnectOne | src/cli/nickel_dbus_cli.cc:147-164 | a method is skipped exactly when it is not a signal of the name or has more than one parameter; a connection uses its signature |
| LegacyCli.ConnectMethodsFacts | src/cli/nickel_dbus_cli.cc:146-167 | the inner loop fails exactly when one method is refused, with its message, and connects only signals of the name |
| LegacyCli.ConnectNamesFacts | src/cli/nickel_dbus_cli.cc:145-168 | both loops fail exactly when some name meets a refused signal |
| LegacyCli.ConnectUndeclared | src/cli/nickel_dbus_cli.cc:145-168 | a name that no signal carries adds nothing and is no error |
| LegacyCli.ConnectMethodsUndeclared | src/cli/nickel_dbus_cli.cc:146-167 | the inner loop for such a name connects nothing |
| LegacyCli.ConnectMethodsStops | src/cli/nickel_dbus_cli.cc:161-163 | after a refusal the rest of the methods changes nothing |
| LegacyCli.ConnectNamesStops | src/cli/nickel_dbus_cli.cc:161-163 | after a refusal the rest of the names changes nothing |
| LegacyCli.NickelDbusCli.ValidateArgCount | src/cli/nickel_dbus_cli.cc:45-58 | true exactly when some method or slot after the offset has the name and the argument count |
| LegacyCli.NickelDbusCli.CallMethod | src/cli/nickel_dbus_cli.cc:60-141 | "invalid parameter count" before any dispatch; then the ladder's errors, the reply's error, or 0 |
| LegacyCli.NickelDbusCli.ConnectSignals | src/cli/nickel_dbus_cli.cc:143-170 | the connections are those of both loops, and the error, if any, is the first refusal |
| LegacyCli.NickelDbusCli.ConnectNext | src/cli/nickel_dbus_cli.cc:145-167 | one turn of the outer loop extends the connections by that name's, and a refusal there is the error of the whole list |
| LegacyCli.NickelDbusCli.ConnectName | src/cli/nickel_dbus_cli.cc:146-167 | the inner loop for one name, with the same connections and error as its specification |
| LegacyCli.NickelDbusCli.ProcessSignal | src/cli/nickel_dbus_cli.cc:172-179 | the join rule for an arrived signal |
| LegacyCli.NickelDbusCli.HandleTimeout | src/cli/nickel_dbus_cli.cc:202-205 | exit with status 1 |
| LegacyCli.NickelDbusCli.StartMethod | src/cli/nickel_dbus_cli.cc:234-247 | a failed call exits with 1; a successful one follows the join rule |
| LegacyCli.NickelDbusCli.StartConnect | src/cli/nickel_dbus_cli.cc:224-233 | an invalid proxy and a failed connection each exit with 1 |
| LegacyCli.NickelDbusCli.Start | src/cli/nickel_dbus_cli.cc:223-251 | the proxy check, the connections, the method and the timer, in that order |
| Service.Settings | src/ndb/NDBDbus.cc:973-976 | refused with "invalid action name" exactly for an invalid action; otherwise `action:setting` |
| Service.SettingsRoundTrip | src/ndb/ndb.cc:769-772 | splitting the setting argument at its first colon gives back the action and the setting |
| Service.BrowserArg | src/ndb/NDBDbus.cc:893-913 | the successive appends build the browser text, and NULL is passed exactly when it is empty |
| Service.BrowserNullIff | src/ndb/ndb.cc:687-710 | NULL exactly when the browser is not modal and has no URL and no CSS |
| Service.BodyRoundTrip | src/ndb/NDBDbus.cc:901-906 | the part after the modal prefix reads back as URL and CSS |
| Service.NoModalPrefix | src/ndb/NDBDbus.cc:894-906 | a non-modal argument whose URL, or else CSS, does not begin with `modal` carries no modal prefix |
| Service.ModalRoundTrip | src/ndb/NDBDbus.cc:895-906 | the modal argument reads back as modal, URL and CSS |
| Service.BrowserRoundTrip | src/ndb/NDBDbus.cc:891-914 | for unambiguous inputs, reading the argument gives back modal flag, URL and CSS |
| Service.Toast | src/ndb/NDBDbus.cc:789-797 | success exactly outside USB mode, within 1 to 5000 ms, with the symbols and the controller; the bounds error exactly for a bad duration outside USB mode |
| Service.ToastBounds | src/ndb/ndb.cc:588 | 1 and 5000 are accepted; 0, 5001 and -1 are not |
| Service.LayoutFromName | src/ndb/NDBDbus.cc:605-617 | refused with InvalidArgs exactly when the lower-cased name is not `vertical`, `horizontal` or `form` |
| Service.LayoutNamesLower | src/ndb/NDBDbus.cc:607 | the three names are lower case |
| Service.LayoutRoundTrip | src/ndb/NDBDbus.cc:610-615 | every layout's name selects it, and a selected layout's name is the lower-cased input |
| Service.LayoutIgnoresCase | src/ndb/NDBDbus.cc:606 | `Horizontal` selects the horizontal layout |
| Service.ClassDetailsCheck | src/ndb/ndb.cc:288-297 | accepted exactly outside USB mode for a symbol ending in `staticMetaObjectE`, otherwise the InvalidArgs message |
| Service.ClassDetailsSuffix | src/ndb/NDBDbus.cc:297 | any name with the suffix passes; a bare class name does not |
| Service.SignalNameOf | src/ndb/NDBDbus.cc:125-129 | the recorded name has no `(` and is the text between the code character and the first `(` |
| Service.SignalNameRoundTrip | src/ndb/ndb.cc:117-127 | the slot string `<code><name>(<params>)` is recorded as `<name>` |
| Service.NdbService.ConnectSignal | src/ndb/NDBDbus.cc:124-133 | the name is added exactly when the connection succeeds |
| Service.NdbService.SignalConnected | src/ndb/NDBDbus.cc:313-315 | membership of the recorded names |
| Service.NdbService.HandleQSWCurrentChanged | src/ndb/NDBDbus.cc:193-204 | a negative index is ignored; otherwise the timer starts only when idle |
| Service.NdbService.HandleQSWTimer | src/ndb/NDBDbus.cc:210-212 | the current view is emitted once and the single-shot timer stops |
| Service.NdbService.OnDlgLineEditAccepted | src/ndb/NDBDbus.cc:513-516 | emits the line-edit signals of the version for an accepted dialog |
| Service.NdbService.OnDlgLineEditRejected | src/ndb/NDBDbus.cc:522-525 | emits the line-edit signals of the version for a rejected dialog |
| Service.LineEditEmissionOrder | src/ndb/ndb.cc:398-408 | the current version emits a text then the matching result, an empty text on reject; the earlier one emits a single signal, the text on accept and Rejected on reject |
| Service.DebounceAtMostOnce | src/ndb/ndb.cc:187-198 | however many view changes arrive, the timer starts at most once, and exactly once when it was idle and some index was non-negative |
| ConfirmDialog.CfmDlg.constructor | src/ndb/NDBCfmDlg.cc:10-39 | without libnickel the result is an init error and nothing resolves; no dialog is open |
| ConfirmDialog.CfmDlg.CreateDialog | src/ndb/NDBCfmDlg.cc:44-75 | ForbiddenError when open, changing nothing; SymbolError or NullError leave it closed; success opens a standard dialog with the non-empty button texts applied |
| ConfirmDialog.CfmDlg.ShowDialog | src/ndb/NDBCfmDlg.cc:77-94 | a keyboard dialog fails on missing symbols, frame or controller; otherwise the finished signal is hooked and the dialog opened |
| ConfirmDialog.CfmDlg.DialogFinished | src/ndb/NDBCfmDlg.cc:89-91 | a hooked dialog deactivates, detaches the line edit and is deleted |
| ConfirmDialog.CfmDlg.CloseDialog | src/ndb/NDBCfmDlg.cc:96-100 | ForbiddenError when not open; otherwise accepted, which finishes it |
| ConfirmDialog.CfmDlg.DeactivateDialog | src/ndb/NDBCfmDlg.cc:102-104 | no dialog is active afterwards |
| ConfirmDialog.CfmDlg.DetatchDialogTextLineEdit | src/ndb/NDBCfmDlg.cc:106-111 | only a line-edit dialog falls back to standard and detaches its line edit |
| ConfirmDialog.CfmDlg.UpdateBody | src/ndb/NDBCfmDlg.cc:113-119 | ForbiddenError unless an open standard dialog; SymbolError without the setter; otherwise the body is set |
| ConfirmDialog.CfmDlg.AddLineEdit | src/ndb/NDBCfmDlg.cc:121-144 | needs an open dialog and the symbols; the line edit and receiver are created only when absent; success makes it a line-edit dialog |
| ConfirmDialog.CfmDlg.AddTextEdit | src/ndb/NDBCfmDlg.cc:146-148 | always NotImplemented |
| ConfirmDialog.CfmDlg.GetText | src/ndb/NDBCfmDlg.cc:150-156 | the typed text on an open line-edit dialog, otherwise the empty string and, when closed, an error message |
| ConfirmDialog.LineEditSession | src/ndb/NDBCfmDlg.cc:44-156 | create, add a line edit, show, type, read and close: the text read is the text typed and the helper ends closed, with the line edit kept but detached |
| Startup.FirstFailure | src/ndb/NDBVolContent.cc:8-55 | no failure exactly when every rung passes; otherwise the kind of the first rung that fails |
| Metadata.UpdatesFacts | src/ndb/NDBMetadata.cc:175-197 | every attribute set is an available key other than the content id, with a value of an accepted type, in map order |
| Metadata.UpdatesPartial | src/ndb/NDBMetadata.cc:195 | a failed update keeps exactly the updates of the entries before the first bad one |
| Metadata.UpdatesStop | src/ndb/NDBMetadata.cc:195 | once a prefix fails, the rest of the map changes nothing |
| Metadata.FileSizeAlwaysRejected | src/ndb/NDBMetadata.cc:186-194 | as written, a `FILE_SIZE` entry of any type fails the update |
| Metadata.FileSizeAcceptedWhenIntended | src/ndb/NDBMetadata.cc:190 | with the intended check an integer file size is set, and the two checks agree on every other key |
| Metadata.BookListFacts | src/ndb/NDBMetadata.cc:137-148 | an id is listed exactly when it is the content id of a valid volume that passes the filter; a filter never lengthens the list |
| Metadata.SideloadedAreFileUrls | src/ndb/NDBMetadata.cc:163-169 | every sideloaded id starts with `file:///` |
| Metadata.ResolveFacts | src/ndb/NDBMetadata.cc:84-97 | resolution succeeds exactly when every required attribute is found; the available keys are the found ones up to the stop |
| Metadata.ResolveStops | src/ndb/NDBMetadata.cc:87-90 | after a missing required attribute the rest changes nothing |
| Metadata.SeriesIdOptional | src/ndb/NDBMetadata.cc:106 | everything required found but the series id still succeeds |
| Metadata.ResolveAll | src/ndb/NDBMetadata.cc:84-109 | the `NDB_RESOLVE_ATTR` calls, taken in order, yield exactly the resolution of the attribute list |
| Metadata.NdbMetadata.constructor | src/ndb/NDBMetadata.cc:34-110 | the ladder's first failure decides the result; then the attributes resolve in order |
| Metadata.NdbMetadata.SetMetadata | src/ndb/NDBMetadata.cc:171-202 | an invalid volume gives VolumeError with nothing set; a bad type gives TypeError after the earlier updates, without saving; then save, with MetadataError when it returns 0 |
| Metadata.NdbMetadata.GetBookList | src/ndb/NDBMetadata.cc:137-169 | the list is that of the chosen filter over the volumes in visiting order |
| VolContent.ValidIdsFacts | src/ndb/NDBVolContent.cc:114-121 | an id is listed exactly when some valid volume has it; the list is never longer than the volumes |
| VolContent.NdbVolContent.constructor | src/ndb/NDBVolContent.cc:8-56 | the first failing rung decides SymbolError or NullError; the database name is not checked |
| VolContent.NdbVolContent.GetDbValues | src/ndb/NDBVolContent.cc:90-104 | empty without a volume; otherwise every key of either map, the volume's value winning |
| VolContent.NdbVolContent.GetBookList | src/ndb/NDBVolContent.cc:106-112 | the list is cleared first and ends as the ids of the valid volumes, so results do not accumulate |
| VolContent.NdbVolContent.ForEachFunc | src/ndb/NDBVolContent.cc:114-121 | appends the id of a valid volume only |
| SemverFile.FirstDigit | src/init.cc:37-42 | the index of the first digit, with no digit before it, or the length when there is none |
| SemverFile.StripExtSuffix | src/init.cc:53-59 | cutting an extension removes it exactly when the text ends with it |
| SemverFile.StripBothSuffixes | src/init.cc:53-59 | the result followed by one of empty, `.so`, `.failsafe` or `.so.failsafe` is the input |
| SemverFile.SemverShape | src/init.cc:36-61 | null exactly when the check gives up or the rest does not fit; a result starts at the first digit and loses only the extensions |
| SemverFile.PlainVersionKept | src/init.cc:53-59 | a version without either extension is kept whole |
| SemverFile.PlainExample | src/init.cc:36-61 | `libndb-1.2.3` gives `1.2.3` |
| SemverFile.StripAppended | src/init.cc:53-59 | cutting an extension that was just appended gives the text back |
| SemverFile.FailsafeLibraryVersion | src/init.cc:36-61 | `libndb-<v>.so.failsafe` gives `v` when `v` starts with a digit other than 0 and 9 |
| SemverFile.NoDigitExample | src/init.cc:43-46 | a name without digits gives null |
| SemverFile.ZeroOrNineRejected | src/init.cc:44-46 | as written, a first digit 0 or 9 gives null |
| SemverFile.LeadingZeroLibrary | src/init.cc:44-46 | `libndb-<v>.so` with `v` starting with 0 gives null as written and `v` as intended |
| SemverFile.IntendedExtractsEveryVersion | src/init.cc:44-51 | with the intended check every name with a digit whose rest fits gives a version starting with that digit |
| SemverFile.ChecksAgreeOtherwise | src/init.cc:44-46 | the two checks differ only on a first digit 0 or 9 |
| SemverFile.ExtractSemverFromFn | src/init.cc:36-61 | the buffer receives the extracted version as a C string exactly when extraction succeeds, and is untouched otherwise |
| SemverFile.StripExtension | src/init.cc:54-59 | the C string in the buffer is cut at its last dot exactly when the tail equals the extension |
| SemverFile.ComparedFromLibraries | src/init.cc:104-106 | every candidate version comes from a regular file whose name starts with `libndb` and starts with a digit |
| SemverFile.CheckVersionsPrefix | src/init.cc:104-120 | the directory loop judges a prefix of the candidate versions, and all of them when it finishes |
| SemverFile.CheckVersionsFinishedIff | src/init.cc:104-120 | the loop finishes exactly when no candidate is unparsable or greater than the running version |
| SemverFile.CheckVersionsStopsAtFirst | src/init.cc:107-114 | a loop that stops, stops at the first unparsable or greater candidate, which names the error or the uninstall |
| ShellWrappers.TypeCodeRoundTrip | tools/dbusxml2sh.py:12-34 | a code has a name exactly when the name maps back to that code |
| ShellWrappers.TypeCodeInjective | tools/dbusxml2sh.py:12-34 | two codes with the same name are the same code |
| ShellWrappers.InArgStrsNumbered | tools/dbusxml2sh.py:60-64 | only `in` arguments are rendered, the k-th as `type:"$k"` |
| ShellWrappers.MethodFuncsShape | tools/dbusxml2sh.py:81-88 | one function per argument list, each named for its index and holding the common command, the method command and the arguments |
| ShellWrappers.DuplicateFunctionNames | tools/dbusxml2sh.py:83-84 | as written, the second and third overloads get the same function name |
| ShellWrappers.IntendedNamesDistinct | tools/dbusxml2sh.py:83-84 | with the intended suffix, overloads get pairwise distinct names |
| ShellWrappers.MethodTable.constructor | tools/dbusxml2sh.py:113-116 | the common command for the chosen bus and an empty table |
| ShellWrappers.MethodTable.ProcessMethod | tools/dbusxml2sh.py:54-76 | a new name gets its command and one argument list; a repeated name gets one more argument list and keeps its command |
| ShellWrappers.MethodTable.CreateShellStr | tools/dbusxml2sh.py:77-92 | the script is the header followed by every function of every entry, in insertion order |
| ShellWrappers.AppendFuncs | tools/dbusxml2sh.py:90-91 | the loop appends the functions in order, giving the start followed by their concatenation |
| ShellWrappers.RenderArgs | tools/dbusxml2sh.py:70-75 | the loop renders the `in` arguments with consecutive numbers |
| ShellWrappers.MethodFunctions | tools/dbusxml2sh.py:81-88 | the loop emits the functions of one entry as specified |

## Left out

- The D-Bus transport, Qt's reflective `invoke`, replies and printing are left out. So are `QCoreApplication::quit`/`exit`, which are recorded as exit requests, and the libnickel `dlsym` look-ups, which are present/absent flags. All of these are foreign runtime.
- The goroutine, channels and `time.After` of `waitForSignal` are left out. The wait is a function over a finite list of notifications, each carrying the nanoseconds the loop idled before it, followed by the nanoseconds of silence after the last one. Concurrency and clocks are outside the model.
- GoCli.Await: when a notification arrives at the very instant the timer fires, Go's `select` picks one of the two at random. The model lets the timer win.
- Float parsing for `h` (`strconv.ParseFloat`) and `QString::toInt` are opaque parameters. Floating point is not modelled.
- `main` of `ndb-cli` and `src/cli/qndb.cc` are left out because they are flag parsing. So are the XML parsing, argument parsing and file writing of `dbusxml2sh.py`.
- `ndb_init`'s failsafe, uninstall flag and file deletions are left out because they are installer glue. `semver_parse` and `semver_compare` are an external library: their combined outcome for each candidate (unparsable, greater, not greater) is an opaque `verdict` parameter of `SemverFile.CheckVersions`.
- `getMetadata(cID)`, `ndbNickelWidgets`, `getNickelMetaObjectDetails`, the firmware-version regular expression and the advanced-dialog widgets are left out: they are Qt UI or library code that cannot be seen.
- Metadata.Updates: the `QVariantMap` is taken as a sequence in its iteration (key) order. The ordering of Qt's map is not modelled.
- Metadata.BookList: QVariant's `toBool`, `toInt` and `toString` are opaque conversion parameters.
- Metadata.NdbMetadata.SetMetadata: the header `NDBMetadata.h` declares a different set of members than `NDBMetadata.cc` defines. The model follows the `.cc` file.
- ConfirmDialog.CfmDlg.CreateDialog: the service calls `createDialog` with a leading dialog type (6 arguments), but `NDBCfmDlg.cc` defines it with 5. The model follows `NDBCfmDlg.cc`, and `addLineEdit` makes the dialog a line-edit dialog.
- LegacyCli.Ladder: the model records that reading past the declared arguments (`QList::at` out of range) cannot happen once the count was validated. It does not model what Qt does on such a read.
- Service.Toast: the USB mass-storage probe is an input flag. The message text of the bounds error is not modelled, only its kind.
- Text.ToLower: case folding is ASCII only.
- VolContent.NdbVolContent.constructor: the database name is not null-checked, and the model keeps that (`NDBVolContent.cc` differs from `NDBMetadata.cc` here).

## Findings

| source | as written | input that shows it | evidently intended | confidence | as-written member | corrected member |
|---|---|---|---|---|---|---|
| src/init.cc:44 | the no-digit test compares the first digit with `'0'` and `'9'` exclusively, so it also turns away a first digit of 0 or 9 | `libndb-0.9.0.so` gives null | only a missing digit (the terminating NUL) gives null | high, not executed | SemverFile.LeadingZeroLibrary | SemverFile.IntendedExtractsEveryVersion |
| tools/dbusxml2sh.py:84 | `"_{i}"` lacks the `f` prefix, so every later overload gets the literal suffix `_{i}` | a method with three overloads: the second and third functions are both `ndb_<name>_{i}`, and the shell keeps only the last | suffix the overload index | high, not executed | ShellWrappers.DuplicateFunctionNames | ShellWrappers.IntendedNamesDistinct |
| src/ndb/NDBMetadata.cc:190-194 | an integer `FILE_SIZE` skips the first branch and then fails the QString check | `setMetadata(id, {FILE_SIZE: 1024})` gives TypeError | accept an integer file size | high, not executed | Metadata.FileSizeAlwaysRejected | Metadata.FileSizeAcceptedWhenIntended |
