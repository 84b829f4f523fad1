# Tern: a verified model of its core algorithms

Tern is a desktop SSH terminal: a Rust core (host store, ssh_config import, host-key trust, transport), a
desktop shell that supervises sessions, and a TypeScript webview. This Dafny project models the parts of it
in which a small slip would be costly and proves what they are for.

| module | models |
|---|---|
| `Glob` | the wildcard matcher shared by the ssh_config and known_hosts code |
| `KnownHosts`, `KnownHostsLaws`, `ImportLaws` | the trust file: verify, learn, remove, import |
| `KnownHostsNames` | the names of sites, what a learned line speaks for, files of one entry |
| `KnownHostsSample` | a library that meets what is assumed of the entry parser |
| `HostKeyGate` | the host-key callback over that file, and whole runs of connects, answers, removals and imports |
| `Lexer`, `SshConfig`, `SshConfigLaws` | tokenizer, stanza builder, include graph and resolution of ssh_config |
| `IncludeReach`, `IncludeOrder` | which files an include graph reads, and where their stanzas stand |
| `SshConfigTraces`, `SshConfigReports` | which lines leave no trace in the configuration, and which give a warning |
| `ConfigScan`, `ConfigExample` | the import preview and what of the configuration it shows; the meaning of each keyword, and files followed from text to preview |
| `Coalescer`, `DataPath`, `FlowControl` | output path: coalescer, bounded queues with the pause gate, webview watermarks |
| `Backpressure` | path and webview joined: frames up, commands down, gate and flag |
| `Reconnect`, `Supervisor` | backoff arithmetic, retry decisions, the supervising loop and the language of its events |
| `Folders`, `SidebarTree` | the folder table with its cycle guard, and the sidebar's nested tree |
| `AuthChain` | the authentication chain that skips methods the server does not offer |
| `HostSearch` | escaping for LIKE and the numbered statement of the host list |
| `Options`, `Text` | the Option type; bytes, lines, trimming, fields, decimal numbers |

Code that updates things in place is modelled in place: `GlobMatch`, `MatchList`, `SplitFields`, `Coalesce`,
`EscapeLike`, `NumberPlaceholders`, `Aliases` and `BuildTree` are loops, and the trust file, the config, the
stanza, the supervisor's session, the host-key callback, the stream counters, the terminal session, the folder
repository, the tree nodes and the server connection are classes. Each method is proved against a function of its inputs or of the old state, and
the laws are proved about those functions. The concurrent pipeline is a state machine with one action for each
step a task can take, so its theorems hold for every interleaving, alone and joined with the webview.

Outside services are parameters. A `Library` holds what the trust file asks of its key library: parsing an
entry line, printing a key, the fingerprint, base64 and the keyed hash with its twenty bytes. `Lawful` says what
is assumed of it: base64 text holds no whitespace, and the two kinds of line `learn` writes, a plain name or a
twenty-byte salt with the digest of a name, are read back. `KnownHostsSample.LawfulIsPossible` gives a library
that meets this. A `World` holds the file system: text, canonical path, parent directory, tilde expansion and
the files an Include pattern names.

## Where the code and its comments differ

The model follows the code.

- The matcher tests for an equal character before it tests for `*`, so a `*` in the value is taken literally.
  `Glob.AgreesExactly` shows that the values it treats right for every pattern are those without a `*`.
- `verify` stops at the first line that decides. A trusted line above an `@revoked` line wins, although the
  comment on `Revoked` says "regardless of anything else" (crates/core-ssh/src/known_hosts.rs:59-60);
  `ImportLaws.OrderDecides` has both orders.
- The identity by which an import tells entries apart leaves out the marker, so an `@revoked` line whose key
  is already on file counts as a duplicate and the key stays trusted (`ImportLaws.RevocationLost`, and
  `RevocationLostExample` on two short texts).
  `ImportLaws.LineOnFileAfterImport` and `ImportLaws.RevokedAfterImport` say exactly which lines arrive and
  exactly when a key is revoked afterwards.
- The callback records an accepted key without looking at the file again. If an import brought a revocation
  while the user was being asked, the connect passes with a revoked key (`HostKeyGate.RevokedDuringPrompt`); if
  it brought another key of the algorithm, the connect passes although the verdict is Changed by then, and the
  key is trusted afterwards (`HostKeyGate.ChangedDuringPrompt`). `HostKeyGate.AcceptedIsTrusted` has the exact
  condition.
- `max_attempts == 0` gives up at once; the field's comment says unlimited (apps/desktop/src/reconnect.rs:79).
  At the largest maximum the attempt counter leaves its range after the last attempt: in release arithmetic it
  wraps to 0 (`Reconnect.NextAttemptWraps`), and the outage need not end
  (`Supervisor.EndlessExactlyAtTheLargestMaximum`).
- A pattern is tried against the bare host as well as against `[host]:port`. So a key learned at port 22, filed
  plainly, is trusted on every port of the host (`KnownHostsNames.BareNameIsForEveryPort`); a hashed one, and one
  learned at another port, is trusted nowhere else. `KnownHostsNames.LearnSparesOthers` has the exact condition.
- The module promises that nothing is silently dropped (crates/core-store/src/ssh_config/mod.rs:8). There are three
  places where something is.
  - A line that begins with an empty pair of quotes, or is a lone quote sign, is no directive at all
    (`Lexer.DroppedExactly`, with `"" x` in `Lexer.EmptyKeywordVanishes`).
  - A directive can leave the stanzas, their settings and the warnings as they were before it, were the file to end
    there. `SshConfigTraces.NoTraceExactly` says when: outside a stanza; in a stanza, as a setting that is missing
    its value, does not parse, or is there already; with all of a stanza without patterns; and an `Include` whose
    files are each unreadable or mute themselves (`SshConfigTraces.BarrenIncludeVanishes`).
  - A setting that is in the configuration need not reach the preview, which is all the user sees.
    `ConfigScan.ReachesExactly` says which do. `ForwardAgent` never does, nor do the settings of a stanza whose
    patterns are all negated (`ConfigScan.LostInThePreview`, with a file in `ConfigScan.NegatedStanzaVanishes`).
- An `Include` inside a `Match` block is followed, and one inside a stanza brings its stanzas in before that
  stanza (`IncludeOrder.IncludeIsFollowedAnywhere`; `IncludeOrder.GraphIsOneFile` for every graph).
- A pause that happens before the session id is known is not sent (`FlowControl.BackendHears`). The gate then stays
  open while the client is paused; with all commands delivered, and no flow reset, this is the only way in which
  the two can differ (`Backpressure.GateFollowsFlag`).
- The tree builder keeps orphans at the root, but folders on a loop are in no list that can be reached from
  the roots (`SidebarTree.ShownExactlyWhenRooted`). The store's guard keeps such loops from arising.

## Model

| member | source | states |
|---|---|---|
| Glob.GlobMatch | crates/core-ssh/src/known_hosts.rs:463-489 | the loop decides exactly the language `Accepts`, in at most (pattern length + 1) · (value length + 1) rounds |
| Glob.LastStarDominates | crates/core-ssh/src/known_hosts.rs:463-489 | one backtrack point is enough: resuming at the last star loses no match an earlier star could still find |
| Glob.Sound | crates/core-ssh/src/known_hosts.rs:463-489 | every match found is a derivation of the `*`/`?` grammar |
| Glob.AgreesExactly | crates/core-ssh/src/known_hosts.rs:463-489 | matcher and grammar agree on all patterns if and only if the value holds no `*` |
| Glob.DefeaterFails | crates/core-ssh/src/known_hosts.rs:463-489 | for a value with a `*`, a concrete pattern that derives it and is not matched |
| Glob.SelfMatch | crates/core-store/src/ssh_config/parse.rs:382-408 | every text matches itself as a pattern |
| KnownHosts.MatchList | crates/core-ssh/src/known_hosts.rs:439-458 | the list loop answers: some plain pattern matches target or host, and no negated one does, wherever it stands |
| KnownHosts.KnownHostsFile.Verify | crates/core-ssh/src/known_hosts.rs:98-164 | the scan returns the verdict of the standings of all lines under the name of host and port (`KnownHostsNames.NamesApart`), line numbers included, or none if the file cannot be read, and leaves the file alone |
| KnownHosts.KnownHostsFile.Learn | crates/core-ssh/src/known_hosts.rs:168-219 | the file becomes its closed old text plus one line for that host and port (`KnownHostsNames.LearnedText`, `LearnSparesOthers`), or is unchanged with the error that stopped it |
| KnownHosts.KnownHostsFile.Remove | crates/core-ssh/src/known_hosts.rs:226-249 | what stays is the text without the lines whose entry names host and port (`KnownHostsLaws.RemoveTakesTheLine`); the count is the number dropped; no hit, no write; an I/O error changes nothing |
| KnownHosts.KnownHostsFile.ImportFrom | crates/core-ssh/src/known_hosts.rs:268-337 | the file and the report are those of the line-by-line import; nothing new, no write; a missing source is an empty report, any other I/O error is one and changes nothing |
| KnownHosts.KnownHostsFile.KnownIdentities | crates/core-ssh/src/known_hosts.rs:374-381 | the identities gathered before an import are those of all entries on file, in order |
| KnownHosts.DecisionIsFirst | crates/core-ssh/src/known_hosts.rs:114-164 | the deciding line is the first that vouches or revokes |
| KnownHosts.AlarmIsFirstConflict | crates/core-ssh/src/known_hosts.rs:114-164 | the mismatch remembered during the scan is the first conflicting line |
| KnownHostsNames.NamesApart | crates/core-ssh/src/known_hosts.rs:343-349 | ordinary hosts have the same target if and only if host and port are the same |
| KnownHostsNames.PortIsPartOfTheName | crates/core-ssh/src/known_hosts.rs:343-349 | a file whose one entry lists `[h]:2222`: the key is Trusted at port 2222 and Unknown at 2200 and 22, and removing h:2200 leaves the file alone |
| KnownHostsNames.LearnSparesOthers | crates/core-ssh/src/known_hosts.rs:168-219 | a line learned for a site changes no verdict of any site it does not speak for: a hashed one speaks for host and port, a plain one too, the bare name for every port; where it speaks the key is Trusted unless Revoked |
| KnownHostsNames.BareNameIsForEveryPort | crates/core-ssh/src/known_hosts.rs:435-458 | a key learned plainly at port 22 is Trusted on every port of the host |
| KnownHostsNames.AllButOne | crates/core-ssh/src/known_hosts.rs:439-458 | `*` with one negated name, in either order, matches every site but those the name speaks for |
| KnownHostsNames.LearnedText | crates/core-ssh/src/known_hosts.rs:403-420 | the bytes written for h at ports 22 and 2222, plain, and hashed over the bracketed name |
| KnownHostsNames.KeyPartIsTwoWords | crates/core-ssh/src/known_hosts.rs:392-401 | of the printed key the first two words are written, in order, and the comment is not |
| KnownHostsNames.OneEntryVerdict | crates/core-ssh/src/known_hosts.rs:114-164 | a file of one entry: each verdict if and only if marker, key and algorithm of the entry say so; authorities and other algorithms say nothing |
| KnownHostsNames.ChangedNamesTheEntry | crates/core-ssh/src/known_hosts.rs:114-164 | a Changed verdict names the line, algorithm and fingerprint of an unmarked entry for the site with another key of the algorithm offered |
| KnownHostsLaws.TrustedMeans | crates/core-ssh/src/known_hosts.rs:114-164 | Trusted if and only if some line vouches and no earlier line revokes |
| KnownHostsLaws.RevokedMeans | crates/core-ssh/src/known_hosts.rs:114-164 | Revoked at a line if and only if it is the first deciding one and revokes |
| KnownHostsLaws.ChangedMeans | crates/core-ssh/src/known_hosts.rs:114-164 | Changed at a line if and only if nothing decides and it is the first line with another key of the algorithm |
| KnownHostsLaws.AppendKeepsSettled | crates/core-ssh/src/known_hosts.rs:168-219 | appending any text to a file, closed with a newline if need be, never changes a Trusted or Revoked verdict |
| KnownHostsLaws.LearnedEntry | crates/core-ssh/src/known_hosts.rs:392-420 | the line written, plain or hashed, reads back as one unmarked entry for exactly that key and target |
| KnownHostsLaws.LearnIsReadBack | crates/core-ssh/src/known_hosts.rs:168-219 | after `learn` the key is Trusted unless the site was already Revoked, whatever the file, with or without final newline |
| KnownHostsLaws.RemoveForgets | crates/core-ssh/src/known_hosts.rs:226-249 | after `remove` every key of the site is Unknown |
| KnownHostsLaws.RemoveTakesTheLine | crates/core-ssh/src/known_hosts.rs:226-249 | a line leaves the text, and is counted, if and only if it holds an entry for the site; comments, unparsable lines and all others stay byte for byte in their places |
| KnownHostsLaws.RemoveSparesOthers | crates/core-ssh/src/known_hosts.rs:226-249 | a site sharing no matching line keeps its verdict up to the line number |
| KnownHostsLaws.SilenceCountsForNothing | crates/core-ssh/src/known_hosts.rs:114-164 | lines with nothing to say change a verdict in its line number only |
| KnownHostsLaws.ImportAddsNewIdentities | crates/core-ssh/src/known_hosts.rs:268-337 | old entries stay a prefix, one entry is added per imported line, the new identities are distinct, the report adds up, and the identity of every usable line is on file |
| KnownHostsLaws.SecondImportIsIdle | crates/core-ssh/src/known_hosts.rs:268-337 | importing the same source again writes nothing, and its duplicates are the first import's imported plus duplicates |
| KnownHostsNames.SharedKeyArrivesTwice | crates/core-ssh/src/known_hosts.rs:374-381 | two lines with one key and different patterns are two identities: both arrive and are counted imported |
| KnownHostsLaws.ImportKeepsSettled | crates/core-ssh/src/known_hosts.rs:268-337 | an import changes no Trusted or Revoked verdict |
| ImportLaws.OnFileAfterImport | crates/core-ssh/src/known_hosts.rs:287-320 | an entry is on file after an import if and only if it was before, or the first usable source line with its identity holds it and that identity is new |
| ImportLaws.LineOnFileAfterImport | crates/core-ssh/src/known_hosts.rs:287-320 | a usable line, revoked or not, has its entry on file if and only if it was there, its identity was not known when the line was reached, or an earlier new line held the same entry |
| ImportLaws.RevokedAfterImport | crates/core-ssh/src/known_hosts.rs:268-337 | a key is Revoked after an import if and only if it was before, or the file did not decide and the first new line that decides is a revocation |
| ImportLaws.ReportCounts | crates/core-ssh/src/known_hosts.rs:287-320 | the report counts the lines that hold something, those malformed, those of authorities, the entries the file gained, and the rest as duplicates |
| ImportLaws.RevocationLost | crates/core-ssh/src/known_hosts.rs:374-381 | a revocation of a key on file is reported a duplicate and dropped; the key stays Trusted |
| ImportLaws.RevocationLostExample | crates/core-ssh/src/known_hosts.rs:374-381 | the same for a file `h k` and a source `@revoked h k` |
| ImportLaws.OrderDecides | crates/core-ssh/src/known_hosts.rs:125-155 | a trusted line above its revocation wins, below it the revocation does |
| KnownHostsSample.LawfulIsPossible | crates/core-ssh/src/known_hosts.rs:392-420 | for every key there is a library that prints it and reads back what is written |
| HostKeyGate.HostKeyCallback.AskHostKey | apps/desktop/src/commands.rs:243-303 | the callback up to its answer or its wait: reply, events and pending prompt are those of the step |
| HostKeyGate.HostKeyCallback.AnswerHostKey | apps/desktop/src/commands.rs:304-319 | the decision delivered and the rest of the callback: file, pending prompts and reply are those of the step |
| HostKeyGate.AskShows | apps/desktop/src/commands.rs:274-303 | a changed key is shown with algorithm, line and fingerprint of the entry on file as recorded and the fingerprint of the key offered as presented; a revoked and an unknown one likewise with their own |
| HostKeyGate.AnswerDecides | apps/desktop/src/commands.rs:304-319 | an answer is taken once from a waiting prompt; the connect goes as the user said even if recording fails, which is reported; a no writes nothing |
| HostKeyGate.AcceptedIsTrusted | apps/desktop/src/commands.rs:304-319 | a key accepted and recorded is Trusted if and only if it was not Revoked when the answer came and its entry reads back |
| HostKeyGate.RevokedDuringPrompt | apps/desktop/src/commands.rs:294-319 | prompt, import of a revocation, yes: the connect passes and the key is Revoked |
| HostKeyGate.ChangedDuringPrompt | apps/desktop/src/commands.rs:294-319 | prompt, import of another key of the algorithm, yes: the connect passes on a site that is Changed by then, and the key is trusted |
| HostKeyGate.TrustHasAnEntry | crates/core-ssh/src/known_hosts.rs:114-164 | Trusted if and only if there is a deciding entry that vouches |
| HostKeyGate.StepKeepsTrust | apps/desktop/src/commands.rs:225-323 | asks, answers, imports and foreign removals each leave the vouching entry deciding |
| HostKeyGate.TrustEndures | apps/desktop/src/commands.rs:225-323 | over every run without a removal that matches it, an entry that vouches goes on vouching |
| HostKeyGate.AcceptedOnceThenSilent | apps/desktop/src/commands.rs:225-323 | once accepted and recorded while not revoked, every later connect with that key passes without event or write until a removal matches its entry |
| HostKeyGate.RunProvenance | apps/desktop/src/commands.rs:225-323 | every entry on file after a run was there at the start, or was written by a step of it |
| HostKeyGate.WaitingWasPrompted | apps/desktop/src/commands.rs:287-303 | every prompt that waits was put up by a step of the run, for a key unknown then |
| HostKeyGate.AcceptedConnectIsAccountable | apps/desktop/src/commands.rs:225-323 | in every run a connect passes at once only on an entry that was there, imported or learned; otherwise only by a yes to its own prompt for that key |
| HostKeyGate.LearnedForTheKeyShown | apps/desktop/src/commands.rs:304-319 | an entry written at an answer is for exactly the key that was shown |
| HostKeyGate.RecoveryByRemoval | apps/desktop/src/commands.rs:274-319 | a changed key is refused; after removal of its site it is prompted for, and a recorded yes makes it Trusted |
| Lexer.SplitFields | crates/core-store/src/ssh_config/lex.rs:55-97 | the character loop with its quote and separator flags computes the scanner's fields |
| Lexer.SeparatorsAgree | crates/core-store/src/ssh_config/lex.rs:55-97 | `K v`, `K=v` and `K = v` give the same fields if and only if the value does not begin with `=` |
| Lexer.CommentIsIgnored | crates/core-store/src/ssh_config/lex.rs:55-97 | what follows an unquoted `#` has no part in the fields |
| Lexer.BareWords | crates/core-store/src/ssh_config/lex.rs:55-97 | a keyword and unquoted arguments come back as written |
| Lexer.KeywordsInAnyCase | crates/core-store/src/ssh_config/lex.rs:28-53 | directives printed with keywords in any case come back with each letter `A`..`Z` of the keyword replaced by the one 32 above, every other character, argument and line number kept |
| Lexer.TokenizeUndoesPrinting | crates/core-store/src/ssh_config/lex.rs:28-53 | where no keyword has a capital, printing with quoted arguments and tokenizing gives the same keywords, arguments and line numbers |
| Lexer.DroppedExactly | crates/core-store/src/ssh_config/lex.rs:42-97 | a line is no directive if and only if, blanks in front aside, it is empty, a comment, a lone quote sign, or begins with an empty pair of quotes |
| Lexer.EmptyKeywordVanishes | crates/core-store/src/ssh_config/lex.rs:42-52 | the line `"" x` is no directive |
| Text.CarriageReturnEndsALine | crates/core-store/src/ssh_config/lex.rs:28-40 | one carriage return before a newline belongs to the end of the line |
| Text.OtherEndsStay | crates/core-store/src/ssh_config/lex.rs:28-40 | a line that does not end in one is read as it stands |
| SshConfig.StanzaMatches | crates/core-store/src/ssh_config/parse.rs:76-88 | some plain pattern matches and no negated one does, although the loop stops at a negated match |
| SshConfig.Stanza.Apply | crates/core-store/src/ssh_config/parse.rs:275-303 | a directive sets its own field if that is unset and its value parses; patterns stay |
| ConfigExample.TextKeywordsMean | crates/core-store/src/ssh_config/parse.rs:275-303 | hostname and user take the first word, identityfile the path with its tilde expanded, proxyjump all hops with commas |
| ConfigExample.NumberKeywordsMean | crates/core-store/src/ssh_config/parse.rs:275-303 | port takes a decimal number below 2^16, the two times one below 2^32; a larger one leaves the field open |
| ConfigExample.NoNumber | crates/core-store/src/ssh_config/parse.rs:275-303 | a word without digits, or with another character than one leading plus sign, is no number and leaves the field open |
| ConfigExample.FlagKeywordMeans | crates/core-store/src/ssh_config/parse.rs:300-303 | forwardagent is on for `yes`, `true` and `on` in any case and off for any other word |
| SshConfig.Stanza.InheritFrom | crates/core-store/src/ssh_config/parse.rs:92-117 | each unset field, and no other, is taken from the other stanza |
| SshConfig.ParsedConfig.ResolveAlias | crates/core-store/src/ssh_config/parse.rs:151-162 | the settings are the matching stanzas' in order, first value wins |
| SshConfig.ParsedConfig.ParseFileInto | crates/core-store/src/ssh_config/parse.rs:176-198 | reading a file in place yields the next state of stanzas, warnings and visited paths, keywords in any case (`Lexer.KeywordsInAnyCase`); recursion ends over every include graph |
| SshConfig.ParsedConfig.Absorb | crates/core-store/src/ssh_config/parse.rs:200-264 | the directive loop with its open stanza and Match flag yields the state after all directives, last stanza flushed |
| SshConfig.ParsedConfig.FollowInclude | crates/core-store/src/ssh_config/parse.rs:307-338 | each argument in turn: its files, or one warning when it names none |
| SshConfigLaws.SettingsByKeyword | crates/core-store/src/ssh_config/parse.rs:56-68 | two records that answer all eight keywords alike are equal |
| SshConfigLaws.TwoPhasesAreOnePass | crates/core-store/src/ssh_config/parse.rs:151-305 | for a file without Include, stanzas then resolution give every setting the value a one-pass reader hears first |
| SshConfigLaws.ReportedExactlyInStanzas | crates/core-store/src/ssh_config/parse.rs:245-258 | a keyword outside the understood ones is warned about if and only if a Host stanza is open |
| SshConfigReports.EveryReportIsGiven | crates/core-store/src/ssh_config/parse.rs:176-338 | over every include graph a warning, refusals aside, is given if and only if a line of a file read gives rise to it: a Match, an unknown keyword inside a stanza, an Include argument that names nothing |
| SshConfigReports.PreviewReports | crates/core-store/src/ssh_config/mod.rs:76-119 | and exactly those warnings are in the preview |
| SshConfigTraces.NoTraceExactly | crates/core-store/src/ssh_config/parse.rs:200-338 | for every directive: stanzas, settings and warnings, were the file to end there, are as before it if and only if it stands outside a stanza, or in a stanza has no pattern, no value, no parsable value or a setting already there, or is a bare Host, or a mute Include |
| SshConfigTraces.FileLeavesNoTrace | crates/core-store/src/ssh_config/parse.rs:176-338 | a file adds no stanza and no warning if and only if it is within the depth cap, not seen before, and unreadable or without a named Host, a Match, a keyword to report and any Include that is not mute |
| SshConfigTraces.BarrenIncludeVanishes | crates/core-store/src/ssh_config/parse.rs:176-187 | an Include of one new file that cannot be read or has no directive leaves no trace |
| SshConfigTraces.PortOutOfRangeVanishes | crates/core-store/src/ssh_config/parse.rs:281-283 | a port out of range in an open stanza leaves the state as it was |
| SshConfigTraces.NamelessStanzaVanishes | crates/core-store/src/ssh_config/parse.rs:266-272 | a stanza without patterns is gone at the end, with its settings |
| SshConfigLaws.IncludeGraph | crates/core-store/src/ssh_config/parse.rs:169-198 | over every include graph: no canonical path read twice, none below depth 16, and the stanzas are exactly the files' own, as if without Include lines, each file's in its order |
| IncludeReach.IncludedFilesAreRead | crates/core-store/src/ssh_config/parse.rs:176-338 | every target of an Include in a file read above the depth cap was visited; and, one canonical path having one text, all that was visited and can be read was read |
| IncludeReach.ParseReaches | crates/core-store/src/ssh_config/parse.rs:176-198 | reading a file from any state covers what the new files include and visits the file itself |
| IncludeOrder.GraphIsOneFile | crates/core-store/src/ssh_config/parse.rs:169-338 | over every include graph the stanzas are, in order, those of one flat file in which included lines stand directly before the stanza their Include interrupts |
| IncludeOrder.ResolvedInOnePass | crates/core-store/src/ssh_config/parse.rs:151-338 | over every include graph, resolving an alias gives each setting the value one pass over the flat file hears first |
| IncludeOrder.FlatOfOneFile | crates/core-store/src/ssh_config/parse.rs:200-264 | a file without Include is its own flat file |
| IncludeOrder.IncludeIsFollowedAnywhere | crates/core-store/src/ssh_config/parse.rs:232-244 | an Include after a Match line is followed, and inside a stanza its stanzas come first |
| ConfigScan.Aliases | crates/core-store/src/ssh_config/parse.rs:134-148 | the nested loops list the aliases of the stanzas |
| ConfigScan.AliasesAreTheConcreteNames | crates/core-store/src/ssh_config/parse.rs:132-148 | the aliases are exactly the patterns without negation or wildcard, none twice, in the order of their first appearance |
| ConfigScan.Scan | crates/core-store/src/ssh_config/mod.rs:75-119 | the preview is one candidate for each alias and the parser's warnings (`SshConfigReports.PreviewReports`), or nothing when the store fails on an alias |
| ConfigExample.OrdinaryFileIsOffered | crates/core-store/src/ssh_config/mod.rs:76-119 | the text `Host a`, `HostName b.example`, as written, offers host `a` at `b.example` on port 22, new or an update, and warns of nothing |
| ConfigExample.FullStanzaIsOffered | crates/core-store/src/ssh_config/mod.rs:76-119 | for every value of the seven shown keywords, each stands in its own field of the one candidate |
| ConfigScan.PreviewIsHeard | crates/core-store/src/ssh_config/mod.rs:80-113 | over every include graph a candidate shows, for each keyword but forwardagent, what one pass over the flat file hears first, else its default |
| ConfigScan.ReachesExactly | crates/core-store/src/ssh_config/mod.rs:80-113 | the value of a setting makes a difference to the preview if and only if the store answers, the keyword is shown, and for some alias its stanza is the first matching one that says anything on it |
| ConfigScan.LostInThePreview | crates/core-store/src/ssh_config/mod.rs:84-113 | forwardagent, and every setting of a stanza with negated patterns only, makes no difference to the preview |
| ConfigScan.NegatedStanzaVanishes | crates/core-store/src/ssh_config/mod.rs:76-119 | `Host !a` with a HostName is one stanza, and an empty preview without a warning |
| Coalescer.Coalesce | crates/term-stream/src/lib.rs:100-163 | the loop sends the frames of the step function and counts bytes, newlines, frames and the longest frame |
| Coalescer.StreamStats.RecordIn | crates/term-stream/src/lib.rs:71-78 | a chunk adds its length and its newlines and nothing else |
| Coalescer.StreamStats.Reset | crates/term-stream/src/lib.rs:61-69 | all counters are zero |
| Coalescer.CoalescingLosesNothing | crates/term-stream/src/lib.rs:100-163 | the frames concatenate to the bytes received; each is 1 to (largest frame − 1) + largest chunk long |
| Coalescer.ShipsExactly | crates/term-stream/src/lib.rs:100-163 | all that waits ships as one frame if and only if there is something and the tick fires, it reached the largest frame, or it came into an empty buffer after an idle gap |
| Coalescer.BusyFramesAreFull | crates/term-stream/src/lib.rs:100-163 | while chunks come without tick and idle gap, only full frames ship |
| Coalescer.EchoIsImmediate | crates/term-stream/src/lib.rs:100-163 | where every chunk comes after an idle gap, each that is not empty is its own frame at once |
| DataPath.StepKeepsInv | apps/desktop/src/commands.rs:182-207 | every step of pump, coalescer, sender or pause flag keeps bytes, bounds, counters and gate |
| DataPath.EveryInterleaving | apps/desktop/src/commands.rs:182-207 | in every state of every interleaving: bytes, bounds, at most one frame through after a pause, bytes in = bytes out + buffer since the last reset; number, total and longest of the frames since then are the counters; the webview's frames are the coalescer's, uncut and in order |
| DataPath.BytesArriveInOrder | apps/desktop/src/commands.rs:182-207 | delivered bytes are a prefix of those received, and with everything in between they are all of them in order |
| DataPath.BufferingIsBounded | apps/desktop/src/commands.rs:182-207 | the bytes in transit stay under a bound in queue depth, chunk size and frame size |
| DataPath.NeverStuck | apps/desktop/src/commands.rs:182-207 | with the gate open and the sender alive, bytes in transit always have a next step |
| DataPath.InternalStepLowersWork | apps/desktop/src/commands.rs:182-207 | every internal step lowers a measure of the work left |
| DataPath.EverythingIsDelivered | apps/desktop/src/commands.rs:411-425 | internal steps end, and where they end the webview has every byte received |
| FlowControl.TermSession.Ingest | ui/src/lib/ipc.ts:223-254 | a frame's effect on the flow fields, the queued write and the command sent |
| FlowControl.TermSession.WriteDone | ui/src/lib/ipc.ts:233-244 | a write callback's effect, resume below LOW included |
| FlowControl.TermSession.ResetFlowState | ui/src/lib/ipc.ts:261-264 | pending bytes and flag are cleared, the counters and the writes under way stay |
| FlowControl.TermSession.ResetJsStats | ui/src/lib/ipc.ts:266-275 | the counters are cleared, pending bytes and flag stay |
| FlowControl.EveryRun | ui/src/lib/ipc.ts:223-275 | over every sequence: paused only with LOW or more pending and a write outstanding, running only with at most HIGH; flag alternates; the accounts balance through resets; each round trip costs HIGH − LOW parsed bytes |
| FlowControl.DrainedIsRunning | ui/src/lib/ipc.ts:233-254 | with every write called back the client is not paused |
| FlowControl.CountersBalance | ui/src/lib/ipc.ts:223-275 | without resets received = parsed + pending = parsed + unacknowledged, and resumes · (HIGH − LOW) ≤ parsed |
| FlowControl.BackendHears | ui/src/lib/ipc.ts:236-254 | the backend hears commands in turns that end in step with the flag; a pause before the id is known is never heard |
| Backpressure.ActKeepsInv | ui/src/lib/ipc.ts:223-254 | every act on either side keeps each delivered frame on its way, written or parsed, in order, and the commands under way the last that were sent |
| Backpressure.EveryRun | apps/desktop/src/commands.rs:182-207 | in every interleaving of backend and webview both invariants and the order of both channels hold |
| Backpressure.GateFollowsFlag | apps/desktop/src/commands.rs:1002-1031 | with all commands delivered the gate is closed if and only if the client is paused, unless it paused unheard, and then they differ |
| Backpressure.OnlyEarlyPausesAreUnheard | ui/src/lib/ipc.ts:249-253 | a pause goes unheard only if a frame raises it before the id is known |
| Backpressure.LoopDrains | ui/src/lib/ipc.ts:223-254 | from every state, paused or not, internal acts come to an end, and where they end every byte received is parsed, the client runs and the gate is open |
| Reconnect.SaturatingPowIsMin | apps/desktop/src/reconnect.rs:39-44 | the saturating power is the exact power clamped to 32 bits |
| Reconnect.CeilingMonotone | apps/desktop/src/reconnect.rs:39-44 | with factor at least 1 the ceiling never falls from one attempt to a later one |
| Reconnect.ExactlyWhenExact | apps/desktop/src/reconnect.rs:39-44 | ceiling = min(base · factor^(attempt−1), cap) for every attempt if and only if factor ≤ 1, base = 0 or base · (2^32−1) ≥ cap |
| Reconnect.JitterIsProportional | apps/desktop/src/reconnect.rs:39-51 | the delay is the fraction times the ceiling; below 0 and for what is not finite it is zero, above 1 the ceiling |
| Reconnect.ShippedSchedule | apps/desktop/src/reconnect.rs:19-52 | the default ceilings are 0.5 s · 2^(attempt−1) up to 16 s and 30 s from the seventh attempt on |
| Reconnect.NextAttemptWraps | apps/desktop/src/reconnect.rs:118-138 | for every maximum a retryable failure is followed by the 32-bit successor of its attempt if that is within the maximum: after 2^32−1 by attempt 0 |
| Supervisor.Session.Supervise | apps/desktop/src/commands.rs:398-509 | the nested loops send exactly the events of the run, call the reconnector as often as it does, and swap the transport and clear the pause once per reconnect |
| Supervisor.Session.RetryUntilBack | apps/desktop/src/commands.rs:450-491 | the retry loop sends exactly the outage's events and makes exactly its calls, and with as many answers as attempts it ends |
| Supervisor.StopMeans | apps/desktop/src/commands.rs:426-453 | from the stop alone: a status is that exit whatever the transport, none on an open transport an exit without code, none on a closed one an outage from attempt 1, or Disconnected without a reconnector or retries; tab closed, webview gone and shutdown seen say nothing; only the outage calls the reconnector |
| Supervisor.TurnMeans | apps/desktop/src/commands.rs:454-492 | from one attempt record alone: shutdown ends in silence, success ends the outage, a failure not to be retried or at the maximum is Disconnected with its own message, any other leads to the next attempt |
| Supervisor.EnoughAnswersEndIt | apps/desktop/src/commands.rs:450-491 | below the largest maximum the attempts left are the loop's measure: given that many answers it is never left waiting |
| Supervisor.NothingAfterShutdown | apps/desktop/src/commands.rs:474-481 | if shutdown is seen at a turn, the reconnector was called at most once for each turn before, and no answer from there on plays a part |
| Supervisor.EndlessExactlyAtTheLargestMaximum | apps/desktop/src/reconnect.rs:118-138 | an outage can announce any number of attempts if and only if retries are on and the maximum is the largest 32-bit number |
| Supervisor.EveryRunInLanguage | apps/desktop/src/commands.rs:398-509 | every run speaks outages of attempts counted from 1 to at most the maximum, each closed by Connected, and at the end nothing, an exit, an open outage or one Disconnected |
| Supervisor.EveryWordIsSpoken | apps/desktop/src/commands.rs:398-509 | and every such word is what some run says, so the language is exact |
| Supervisor.OutageIsBounded | apps/desktop/src/commands.rs:450-491 | an outage has at most the maximum of attempts and waits at most that many caps in all |
| Folders.FolderRepo.CreateFolder | crates/core-store/src/folders.rs:46-68 | the row created, behind its siblings, or the error and no change |
| Folders.FolderRepo.MeetsAncestor | crates/core-store/src/folders.rs:99-116 | the ancestor walk finds the folder if and only if the target is the folder or lies under it |
| Folders.FolderRepo.ReparentFolder | crates/core-store/src/folders.rs:91-127 | the move, or the cycle, missing-row or constraint error and no change |
| Folders.FolderRepo.Cascade | crates/core-store/src/folders.rs:129-145 | following child rows round by round gathers exactly the subtree |
| Folders.FolderRepo.RenameFolder | crates/core-store/src/folders.rs:66-84 | the trimmed name, or the error and no change |
| Folders.FolderRepo.DeleteFolder | crates/core-store/src/folders.rs:134-145 | exactly the folders under the one named go, the others stay as they are, every host stays, and only those filed in the subtree lose their folder |
| Folders.FolderRepo.FileHostIn | crates/core-store/src/hosts.rs:242-252 | the host's new folder, or the missing-row or constraint error and no change |
| Folders.FolderRepo.AddHostIn | crates/core-store/src/hosts.rs:79-120 | the new host filed, or the constraint error and no change |
| Folders.CreateWrites | crates/core-store/src/folders.rs:45-64 | a new folder has the parent asked for, the trimmed name and a position behind all siblings; every other row and host stays; each error if and only if its cause |
| Folders.RenameWrites | crates/core-store/src/folders.rs:66-83 | only the name changes, to the trimmed one; each error if and only if its cause |
| Folders.ReparentWrites | crates/core-store/src/folders.rs:91-127 | a move leaves the folder under its target with name and position, and all else as it was; FolderCycle if and only if the moved table would have a folder that is its own ancestor; each other error if and only if its cause |
| Folders.FilingWrites | crates/core-store/src/hosts.rs:242-252 | only the one host's folder changes; each error if and only if its cause |
| Folders.DeleteWrites | crates/core-store/src/folders.rs:134-144 | exactly the subtree goes and its hosts are unfiled, or the row is missing and nothing changes |
| Folders.FolderRepo.Tree | crates/core-store/src/folders.rs:19-43 | every listed folder once, parents before children, ordered by depth, position and name |
| Folders.OrderMeans | crates/core-store/src/folders.rs:29-30 | among folders as deep: lower position first, at one position by the first differing character of the names, case aside |
| Folders.TreeShowsAllExactlyInForests | crates/core-store/src/folders.rs:19-43 | the listing shows every folder if and only if the table is a forest |
| Folders.ReparentKeepsForest | crates/core-store/src/folders.rs:86-127 | a move the walk lets through keeps the forest |
| Folders.RefusedMoveWouldCycle | crates/core-store/src/folders.rs:86-127 | a move the walk refuses would have made a cycle |
| Folders.OpKeepsSound | crates/core-store/src/folders.rs:46-145 | every operation keeps the forest and the hosts' filing; a refused one changes nothing; deletion keeps every host |
| Folders.OpKeepsNames | crates/core-store/src/folders.rs:46-127 | every operation keeps names trimmed, not empty and, case aside, unlike those of siblings, roots included |
| Folders.EveryReachableStoreIsAForest | crates/core-store/src/folders.rs:46-145 | every store reached by any operations is a forest, and all its folders are listed |
| SidebarTree.BuildTree | ui/src/components/HostSidebar.tsx:30-67 | aliased pushes leave at every path of child positions the node of the item placed there, and nothing where there is none |
| SidebarTree.PickedHolds | ui/src/components/HostSidebar.tsx:41-66 | a child list holds an item if and only if it is placed there: under its folder if that is listed, else at the root |
| SidebarTree.KidsMean | ui/src/components/HostSidebar.tsx:41-66 | from the rows alone: a listed folder holds the folders that name it as parent and the hosts filed in it, the root those whose folder is missing or not given |
| SidebarTree.PickedInOrder | ui/src/components/HostSidebar.tsx:41-66 | child lists are in list order, folders before hosts, without repetition |
| SidebarTree.ShownOnce | ui/src/components/HostSidebar.tsx:30-67 | with unique folder ids no item is shown at two places |
| SidebarTree.ShownExactlyWhenRooted | ui/src/components/HostSidebar.tsx:30-67 | an item is shown if and only if the folders above it come to an end |
| SidebarTree.ForestIsShown | ui/src/components/HostSidebar.tsx:30-67 | any part of a store's forest, in any order and with parents missing, is shown completely, hosts too |
| SidebarTree.LoopVanishes | ui/src/components/HostSidebar.tsx:44-56 | two folders inside each other are shown nowhere |
| AuthChain.Handle.Authenticate | crates/core-ssh/src/session.rs:359-412 | the loop's result and the tries it spends are those of the skipping chain; the failure detail joins the log |
| AuthChain.Handle.AuthenticateWithAgent | crates/core-ssh/src/session.rs:524-561 | agent identities in turn: accepted, else the last rejection, else the last local error |
| AuthChain.AgentReports | crates/core-ssh/src/session.rs:524-561 | an agent none of whose identities is taken: rejected if any was offered, else failed with the last error, else for want of usable identities |
| AuthChain.SkippingLosesNothing | crates/core-ssh/src/session.rs:359-412 | what trying every method wins, skipping wins with the same method, never with more tries |
| AuthChain.SkippingGainsOnlyAtTheLimit | crates/core-ssh/src/session.rs:366-382 | the two differ only where trying everything has used up the server's limit |
| AuthChain.SkippingCanWin | crates/core-ssh/src/session.rs:345-354 | a concrete chain that wins by skipping and fails by trying everything |
| AuthChain.FirstAcceptableWins | crates/core-ssh/src/session.rs:359-412 | only a method the server accepts wins, and while the connection is open no acceptable one is passed over |
| AuthChain.OneEntryPerMethod | crates/core-ssh/src/session.rs:368-405 | one log entry per method tried or skipped, in order, with its label and its reason; skipped only if not offered |
| AuthChain.EntryNames | crates/core-ssh/src/session.rs:459-467 | an entry begins with `password`, `key` and the path, or `agent` |
| AuthChain.DetailLists | crates/core-ssh/src/session.rs:405-411 | the failure message is the entries in order with `; ` between, or says that none was configured |
| AuthChain.FailureReads | crates/core-ssh/src/session.rs:359-412 | a failing chain of four methods and its log: unreadable key, rejected password, no agent, password skipped |
| HostSearch.EscapeLike | crates/core-store/src/hosts.rs:300-309 | the character loop computes the escaped text |
| HostSearch.SearchIsContains | crates/core-store/src/hosts.rs:141-147 | LIKE with the escaped text between two `%` matches exactly the strings that contain the text, ASCII case aside |
| HostSearch.UnescapedFindsTooMuch | crates/core-store/src/hosts.rs:298-309 | without the escaping a `%` finds strings that do not hold one |
| HostSearch.NumberPlaceholders | crates/core-store/src/hosts.rs:313-326 | the find loop replaces the i-th marker by `?i` and copies everything else |
| HostSearch.ParametersInOrder | crates/core-store/src/hosts.rs:311-326 | the database reads back parameters 1, 2, … once each, for a statement whose marks are all markers and run into no digit |
| HostSearch.StatementIsSafe | crates/core-store/src/hosts.rs:135-168 | for every filter the statement has one marker for each argument |
| HostSearch.ArgumentsInOrder | crates/core-store/src/hosts.rs:141-166 | for every filter the arguments are the pattern three times, the folder, each tag in order and the limit, each only if asked for |
| HostSearch.FirstArgumentsSearch | crates/core-store/src/hosts.rs:141-152 | for every filter whose text is not blank the first three arguments are patterns that match exactly the strings containing the trimmed text |
| HostSearch.SelectsTheWanted | crates/core-store/src/hosts.rs:135-167 | read condition by condition with its arguments, the repository's statement selects a host if and only if it contains the text, is in the folder and has every tag; then come the order and the limit asked for |
| HostSearch.ContainsMeans | crates/core-store/src/hosts.rs:141-147 | containing means standing at some position letter by letter, ASCII case aside |
| HostSearch.ListHosts | crates/core-store/src/hosts.rs:135-170 | the repository's own statement: its parameters are 1 to the number of arguments, clause by clause they are the filter's, and a text asked for is bound as three patterns that match what contains it |

## Left out

- Cryptography, key parsing, ssh-agent protocol, transport, SQLite and the async runtime: parameters, abstract queues or flags.
- Unicode lower case: `to_lowercase` and `eq_ignore_ascii_case` are both taken as ASCII case; strings are sequences of characters, not bytes.
- Floating point rounding: jitter and delays are real numbers; only NaN and the infinities are kept apart.
- Reconnect.Delay: does not model the rounding of the duration multiplication to nanoseconds.
- Of the schema (crates/core-store/migrations/0001_init.sql:18-35) the foreign keys, cascade, set-null and sibling-name uniqueness are written out as rules in `Folders.Apply`; timestamps and the other tables are omitted.
- `KnownHostsFile::entries` and `hostIdOf`: straight filters.
- Committing an ssh_config import (`apply` in crates/core-store/src/ssh_config/mod.rs): an insert or update for each candidate.
- Of I/O errors on the trust file the model has two: it is there and cannot be read, and a write fails, which covers a directory that cannot be made; a failed write leaves the file as it was, no half of a line or file. Runs over the file (`HostKeyGate.Run`) have these errors for looking up and learning; a removal or import that fails is a step that is not taken.
- Looking a key up, learning, removing and importing are one atomic step each; the wait for the user is between steps.
- Two waiting prompts under one session id: the later one replaces the earlier, whose callback then answers no without a step of its own.
- `glob_paths`, tilde expansion and canonicalisation are functions of the `World`.
- The re-arming connect timeout, keepalive, exec, close and the window pause of `session.rs`.
- The `insecure_accept` path of the host-key callback, used by rigs only.
- KnownHostsNames.LearnSparesOthers: is about hosts without wildcards, brackets or a leading `!`, and about salts under which different names have different digests.
- KnownHostsNames.AllButOne: likewise, as the two sites' hosts are concerned.
- AuthChain.AgentReports: is about a server that stays connected while the agent's identities are tried.
- AuthChain.SkippingLosesNothing: is about a server whose offered methods are fixed, as its rejections name them; one that changes them, or asks for two methods in turn, is not covered.
- Pause agreement between webview and backend across a reconnect, and closing during a connect. Frames and commands each arrive in the order sent.
- Fairness of the coalescer's tick: a tick may fire whenever bytes are waiting.
- How the rows are chosen by the database and turned into hosts; only text, arguments and the LIKE match are modelled.
- Tab store, clipboard, theming, migrations, DTO conversions, benchmarks.
