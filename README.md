# nssh front end

nssh opens a chain of SSH connections through a list of hops and then runs
a command, opens a shell, or relays a local port through the last hop.
This project models its command-line front end, the part of `_main` in
`nssh.go` that turns the argument list into a plan for the dialling code:

- the **argument scanner**: a left-to-right pass that keeps a pending
  consumer for the argument after `-i[N]` or `--run_local_fwd`, classifies
  every other argument with a per-character loop (short-option cluster,
  long option, hop descriptor containing `@`, or start of the command), and
  accumulates the verbosity, the global key path, the per-hop key paths,
  the forward target, the hop descriptors and the command;
- **hop assembly**: for each descriptor `[user[:password]@]host[:port]`, the
  key path (indexed path, else the global one), the authentication methods
  (key first, then an inline password), the user, the host and the port
  read by Go's `strconv.Atoi`, stopping at the first hop that fails;
- **validation and mode choice**: no hops is an error, a forward target
  without a command is an error, and the session asks for a terminal exactly
  when there is no command.

Modules:

- `Wrappers`: `Option` and `Result`.
- `Numbers`: `strconv.Atoi` on a 64-bit platform, with `FormatInt` as its partner.
- `Splitting`: `strings.SplitN(s, sep, 2)` with a one-character separator.
- `Diagnostics`: the errors and the text printed for them.
- `Args`: the scanner.
- `Hops`: the descriptor split, the key selection and the hop assembly.
- `FrontEnd`: the whole front end and the TTY choice.

The loops and step-by-step updates of the source are methods proved
against specification functions: `Args.ClassifyArg` against `Args.Classify`, `Args.ScanArgs`
against `Args.Scan`, `Hops.ConfigureHop` against `Hops.ResolveHop`,
`Hops.AssembleHops` against `Hops.Assemble`, and `FrontEnd.Configure`
against `FrontEnd.Prepare`. The properties are lemmas about those
functions.

The surroundings are parameters:

- the argument list (`os.Args[1:]`);
- an `Environment` holding the local user name from `user.Current()`;
- the default key path, `path.Join(home, ".ssh", "id_rsa")`, computed by the caller;
- a map from key paths to parsed keys, standing for the files that can be read and parsed.

Strings are sequences of runes. The byte offsets the source uses (`i == 0`,
`i == 1`, `arg[i+1:]`) equal rune offsets there, because every byte before
them is an ASCII `-`, `v` or `i`.

There is no positivity check: the port is whatever `strconv.Atoi` accepts, so
`host:-1` and `host:+22` give ports -1 and 22.

The scanner adds only arguments that contain `@` to the hop list. So the
descriptor branch without `@` (nssh.go:205-206) is never reached from the front
end. That covers `Hops.SplitBareHost` and the local-user case of
`Hops.ResolveJoined`, which are stated about the descriptor parser on its own.

## Model

| member | source | states |
|---|---|---|
| Numbers.Atoi | nssh.go:210-215 | a parsed number fits in 64 bits, comes from a non-empty run of digits after an optional sign, and is the value of those digits, negated after a `-` |
| Numbers.AtoiUnsigned | nssh.go:210-215 | unsigned digits read as their value up to 2^63 - 1, and anything larger is an error |
| Numbers.AtoiLeadingZero | nssh.go:210-215 | a leading zero is accepted and does not change the value |
| Numbers.AtoiLeadingZeroExample | nssh.go:210-215 | the port text "0022" reads as 22 |
| Numbers.AtoiFormatInt | nssh.go:113-116 | every 64-bit integer written in decimal reads back as itself |
| Numbers.AtoiSigned | nssh.go:210-214 | a leading `+` is ignored and a leading `-` negates, down to -2^63; no positivity check |
| Numbers.AtoiExamples | nssh.go:210-214 | "2222", "-1" and "+22" are read as numbers; "", "+", "ssh" and "22a" are errors |
| Splitting.SplitFirst | nssh.go:198-209 | no split exactly when the separator is absent; otherwise the pieces are the text before the first separator and the rest, and they rejoin to the input |
| Splitting.SplitFirstAt | nssh.go:198-209 | the split is the one at the first separator, whatever follows it |
| Diagnostics.Message | nssh.go:226-237 | the front end words every error it raises itself, naming the offending option for option errors (the short-option text ends with the letter itself between quotes); errors from Atoi and the key loader keep their library's text |
| Diagnostics.MessageIdentifiesError | nssh.go:226-237 | two different errors the front end words itself never print the same text |
| Diagnostics.ShortOptionMessageQuotes | nssh.go:122 | the corrected message quotes the offending letter itself |
| Diagnostics.ShortOptionMessageAsWrittenHidesOption | nssh.go:122 | as written, the quoted text holds only the decimal code point, never a non-digit letter, so it differs from the corrected message |
| Diagnostics.ShortOptionMessageAsWrittenExample | nssh.go:122 | as written, `-x` is reported as option '120' |
| Args.Cluster | nssh.go:101-124 | a short-option cluster is either a set of options or an unknown letter; what the letters do is stated by `ClusterMeaning`, `ClusterVerbosity`, `RunKeyOption` and `RunUnknownShortOption` |
| Args.ClusterMeaning | nssh.go:101-123 | the cluster is read up to its first letter other than `v`: an unknown letter is that first letter, and is neither `v` nor `i`; a key index is all the text after that first letter, which is then an `i` |
| Args.ClassifyArg | nssh.go:85-151 | the per-character loop with its flags and `@` count classifies an argument exactly as `Classify` does |
| Args.Consume | nssh.go:76-83 | clears the pending consumer and leaves hops and command as they were; where the argument goes is stated by `RunKeyOption` and `RunForwardOption` |
| Args.ScanArgs | nssh.go:75-152 | the scanning loop computes exactly `Scan`: the same state or the same first error |
| Args.RunDescriptors | nssh.go:144-146 | a run of descriptors is appended to the hop list in order |
| Args.ScanPlain | nssh.go:144-151 | descriptors followed by a non-option are the hops, and that argument with all later ones is the command, unscanned |
| Args.ScanCmdFlag | nssh.go:133-135 | `--cmd` makes every later argument the command, options and descriptors included |
| Args.CmdFlag | nssh.go:91-98 | the only argument read as the long option "cmd" is `--cmd` |
| Args.RunKeyOption | nssh.go:104-119 | `-i PATH` replaces the global key path; `-iN PATH` records PATH for hop N; a non-integer N is an error raised when PATH is consumed; PATH is never classified |
| Args.RunTrailingKeyOption | nssh.go:76-83 | a key option with no argument after it is dropped without error, even with a bad index |
| Args.RunForwardOption | nssh.go:136-140 | `--run_local_fwd X` stores X as the forward target without classifying it |
| Args.RunUnknownLongOption | nssh.go:141-143 | any other long option, bare `--` included, is an "unknown long opt" error |
| Args.RunUnknownShortOption | nssh.go:121-123 | a cluster letter other than `v` and `i` is an error naming that letter |
| Args.ClusterVerbosity | nssh.go:102-103 | each `v` in a cluster adds one to the verbosity |
| Args.ClassifiedMeaning | nssh.go:75-83 | an argument is read by the scan unless the one before it was read and hands the next argument to `-i` or `--run_local_fwd` |
| Args.FirstStopMeaning | nssh.go:133-151 | the stop position is the first argument the scan reads that starts the command or is `--cmd` |
| Args.ScannedHopsMeaning | nssh.go:144-146 | the scanned hops are descriptors taken from the arguments in order; they include every descriptor the scan reads before the command starts, and each of them is such a descriptor |
| Args.RunHops | nssh.go:144-146 | the scan adds to the hop list exactly the descriptors among the arguments it reads before the command starts, in order |
| Args.RunCommand | nssh.go:133-151 | the command is all arguments from the first one the scan reads that starts the command (after it, for `--cmd`); it is empty when no argument the scan reads starts it |
| Hops.SplitEndpoint | nssh.go:197-216 | the parts hold no separator they could have been split on |
| Hops.JoinSplitLogin | nssh.go:200-204 | splitting the user part on its first `:` loses nothing |
| Hops.SplitJoinLogin | nssh.go:200-204 | a user without `:` and a password are split back out of "user:password" |
| Hops.JoinSplitHostPort | nssh.go:209-214 | splitting the host part on its first `:` loses nothing |
| Hops.SplitJoinHostPort | nssh.go:209-214 | a host without `:` and a port text are split back out of "host:port" |
| Hops.JoinSplit | nssh.go:197-216 | every descriptor is exactly the parts it splits into |
| Hops.SplitJoin | nssh.go:197-216 | well-formed parts are split back out of the descriptor they join into |
| Hops.CollectMeaning | nssh.go:155-217 | the hop loop succeeds exactly when every hop does, yields their settings in order, and otherwise stops at the first failing hop |
| Hops.Assemble | nssh.go:155-217 | one setting per descriptor, hop k resolved with index k; otherwise the error of a hop whose predecessors all resolve |
| Hops.ConfigureHop | nssh.go:157-216 | the step-by-step overwrite of the default host, port 22, the local user and the key methods computes exactly `ResolveHop` |
| Hops.AssembleHops | nssh.go:155-217 | the hop loop with its early return computes exactly `Assemble` |
| Hops.KeySelection | nssh.go:157-163 | an indexed key path overrides the global one |
| Hops.KeyMethods | nssh.go:167-183 | an unloadable key fails the hop; an empty path offers only password methods; otherwise the key method comes first |
| Hops.ResolveJoined | nssh.go:186-216 | a descriptor gives the user before the first `:` (or the local user without `@`), the password after the key methods, the host, and the Atoi port or 22; a port text Atoi refuses fails the hop |
| Hops.SplitUserHostPort | nssh.go:197-216 | "alice@host:2222" gives user alice, host "host" and port text "2222" |
| Hops.SplitBareHost | nssh.go:205-206 | "host" gives no login, host "host" and no port |
| Hops.SplitPassword | nssh.go:200-204 | "alice:secret@host" gives user alice with password "secret" and host "host" |
| Hops.SplitSignedPort | nssh.go:209-214 | "root@gw:-1" keeps the signed port text "-1" for Atoi |
| FrontEnd.UseTTY | nssh.go:279-285 | a forced choice wins; otherwise a terminal is used exactly when there is no command |
| FrontEnd.Prepare | nssh.go:226-243 | a scan error or a hop error comes through unchanged; otherwise no hops gives "no ssh hops" and a forward target without a command is refused; a plan is produced exactly when neither applies, and it has hop k resolved from the k-th scanned descriptor and a terminal exactly without a command |
| FrontEnd.Configure | nssh.go:226-285 | the scan loop, the hop loop, the checks and the TTY choice compute exactly `Prepare` |
| FrontEnd.NoDescriptorNoPlan | nssh.go:226-228 | without an argument that reads as a descriptor there is no plan; a successful scan then fails with "no ssh hops" |
| FrontEnd.PlainInvocation | nssh.go:144-151 | `nssh HOP... [COMMAND...]` uses the default key for every hop, runs the command as given, forwards nothing, and asks for a terminal exactly without a command |

## Left out

- Reading and parsing key files (nssh.go:168-176) is a map from path to parsed key. A path that is not in the map stands for both a read error and a parse error, so the two are not distinguished.
- The dial chain (nssh.go:246-275) is left out: `net.Dial`, `ssh.NewClientConn`, tunnelled dialling and deferred closes. `FrontEnd.Configure` makes the TTY choice right after the checks. The source makes it after dialling, so a dial failure there comes first.
- The port-forward relay (nssh.go:323-354) is left out, because it is goroutines and socket copies.
- The `{{fwd}}` substitution (nssh.go:300-316) is left out, because it is Go's `text/template` language.
- Sessions, pseudo-terminals and window-change handling (nssh.go:365-437) are left out, because they are terminal I/O and signals.
- The raw-mode block (nssh.go:47-54) can never run, because it is guarded by `&& false`.
- Running the local command with `exec.Command` is left out.
- `user.Current()` and `path.Join` are not modelled. The user name and the default key path are parameters, and a failing `user.Current()` is not represented.
- Verbose logging to standard error is left out. Only the verbosity count is kept.
- The wording of `strconv` and key-loader errors is left out. `NotAnInteger` carries the refused text and does not say whether the error was a syntax error or a range error.
- Invalid UTF-8 in arguments is not represented, because arguments are sequences of runes.
- Numbers.Atoi: states Go's accepted language and value, not its digit-by-digit loop with overflow cut-off.
- Diagnostics.Message: gives the corrected wording of the unknown-short-option message, which quotes the letter itself. nssh prints the decimal code point instead; that text is `Diagnostics.ShortOptionMessageAsWritten`, listed under Findings.
- The default host "localhost" is always overwritten by the descriptor. So "user@" gives the empty host, and the model does the same.

## Findings

| source | as written | input that shows it | evidently intended | confidence | as-written member | corrected member |
|---|---|---|---|---|---|---|
| nssh.go:122 | `%v` formats the rune `c` as its decimal code point | `nssh -x host` prints `Unknown short option '120'` | quote the letter itself: `Unknown short option 'x'` (verb `%c`) | high, not executed | Diagnostics.ShortOptionMessageAsWritten, Diagnostics.ShortOptionMessageAsWrittenHidesOption, Diagnostics.ShortOptionMessageAsWrittenExample | Diagnostics.ShortOptionMessage, Diagnostics.ShortOptionMessageQuotes |
