# vt-cli object printer — a Dafny model

This project models the object printer of the VirusTotal command-line client
(`cmd/cmd.go`). That code turns command-line arguments into identifiers, fetches
the matching remote objects, and prints each one as a single-key map. The key is
`"<type> <<id>>"` and the value is the object's attributes with its relationships
folded in. For paginated listings it also prints a hint with the command line
that resumes the listing at the returned cursor.

Everything the printer depends on is abstract: the API client, the iterator, the
glob filter, the YAML encoder and the configuration. Each one appears as a
parameter:

- the fetcher is a function from the object type and identifiers to a sequence
  of outcomes, in delivery order;
- a drained iterator is its items, its optional error and its cursor;
- `utils.FilterMap` is an uninterpreted function;
- the encoder is a function that reports whether encoding and flushing a list
  failed;
- the regular-expression reader is a function on read streams;
- standard input is a sequence of reads;
- the configuration values (`identifiers-only`, `include`, `exclude`, `limit`,
  `cursor`, `filter`, `apikey`) are explicit parameters.

Output is a sequence of events:

- an identifier line;
- an encoded list of entries;
- an error line on standard error;
- the "MORE WITH" hint.

Modules:

- `Wrappers`: `Option` and `Result`.
- `Objects`: attribute values, objects and relationships.
- `Projection`: `PrintObjects` and `PrintObject`, which cover the filter, the
  relationship folding and the entry key.
- `ArgReader`: reader selection and the collection loop of `Print`.
- `Hint`: `PrintCommandLineWithCursor`.
- `Printer`: `Print`, `PrintIter`, `PrintCollection` and `NewAPIClient`.

Only a read that returns an empty string together with an error ends
collection; an empty string read without an error is collected
(`ArgReader.EmptyReadWithoutErrorKept`, `ArgReader.ArrayArgsAllCollected`).

## Model

| member | source | states |
|---|---|---|
| `Projection.RelatedIds` | cmd/cmd.go:282-285 | the identifier list of a relationship has one entry per related object, in the same order |
| `Projection.FoldRelationship` | cmd/cmd.go:279-287 | a one-to-one relationship with at least one related object becomes the bare identifier of the first; every other relationship (one-to-one with none included) becomes the ordered list of all related identifiers |
| `Projection.FoldInOrder` | cmd/cmd.go:278-288 | the relationship loop as written, visiting names in a given order: afterwards the keys are exactly the attribute keys plus the visited relationship names |
| `Projection.FoldInOrderEffect` | cmd/cmd.go:278-288 | the relationship loop, run in any order, sets every relationship name to its folded value (overwriting an attribute of that name) and leaves every other key untouched |
| `Projection.FoldInAnyOrder` | cmd/cmd.go:278-288 | whatever order Go's map iteration picks, the loop computes the same order-free fold |
| `Projection.FoldOrderIrrelevant` | cmd/cmd.go:278-288 | two visiting orders of the relationships print the same map |
| `Projection.FoldTwice` | cmd/cmd.go:273-288 | folding a map that has already been folded changes nothing, so the in-place update of the object's own attribute map is harmless on a second print |
| `Projection.ProjectAttributes` | cmd/cmd.go:273-288 | relationship names map to their folded values; every other key is present exactly when it is in the attributes and keeps its value, or in `FilterMap`'s result when both include and exclude are set |
| `Projection.EntryKey` | cmd/cmd.go:289 | the entry key is the type, then a space and `<`, then the identifier, then `>` |
| `Projection.PrintObjects` | cmd/cmd.go:268-298 | one entry per object, in input order; each entry's only key is `type + " <" + id + ">"` and maps to the projected attributes; the result is the encoder's verdict on that list |
| `Projection.PrintObject` | cmd/cmd.go:262-266 | printing one object prints a one-entry list holding that object's entry |
| `Projection.EntryKeyRoundTrip` | cmd/cmd.go:289 | an entry key reads back into the type and identifier it was built from, when the type has no `<` |
| `ArgReader.SelectReader` | cmd/cmd.go:180-184 | standard input is read exactly when the arguments are the single `"-"` |
| `ArgReader.ReaderStream` | cmd/cmd.go:180-188 | the collection loop reads standard input when the arguments are exactly `["-"]` and the arguments otherwise, wrapped in the regular-expression reader exactly when a regular expression is given |
| `ArgReader.Collected` | cmd/cmd.go:190-193 | the collected strings are exactly the texts of the reads before the first read that returns an empty string together with an error |
| `ArgReader.CollectArgs` | cmd/cmd.go:190-193 | the reading loop of `Print` collects exactly those strings |
| `ArgReader.ArrayArgsAllCollected` | cmd/cmd.go:183-193 | with the array reader, every argument is collected, empty ones included |
| `ArgReader.EmptyReadWithoutErrorKept` | cmd/cmd.go:191 | an empty string read without an error is collected and does not end collection |
| `Hint.Quoted` | cmd/cmd.go:129-132 | each positional argument appears wrapped in single quotes, in order |
| `Hint.NonCursorFlags` | cmd/cmd.go:134-138 | the echoed flags are visited flags, none named `cursor`, and every visited non-cursor flag is echoed |
| `Hint.HintFlags` | cmd/cmd.go:133-139 | the flag list has one element per non-cursor visited flag plus one, and `--cursor=<cursor>` is last |
| `Hint.HintFlagsRenderNonCursor` | cmd/cmd.go:133-139 | the flag list is exactly the non-cursor visited flags rendered as `--name=value` in visiting order, followed by `--cursor=<cursor>` |
| `Hint.CommandLineWithCursor` | cmd/cmd.go:127-144 | a hint is produced exactly when the cursor is non-empty; it starts with the banner and the command path and ends with ` --cursor=<cursor>` and a newline |
| `Hint.SearchHintExample` | cmd/cmd.go:127-144 | `vt search` with argument `foo`, flag `limit=3` and cursor `XYZ` gives `vt search 'foo' --limit=3 --cursor=XYZ` |
| `Printer.Successes` | cmd/cmd.go:202-208 | an object is received exactly when some outcome fetched it |
| `Printer.Failures` | cmd/cmd.go:216-218 | an error is reported exactly when some outcome failed with it |
| `Printer.SuccessesAppend` | cmd/cmd.go:202-208 | the objects received from a run of outcomes are those of its first part followed by those of its rest, so objects arrive in delivery order with their multiplicity |
| `Printer.FailuresAppend` | cmd/cmd.go:216-218 | the same for errors: each failed outcome is reported once, in delivery order |
| `Printer.ChannelsOfOne` | cmd/cmd.go:195-198 | one outcome yields its object on the success channel if it was fetched, and its error on the error channel if it failed, once |
| `Printer.ChannelsPartitionOutcomes` | cmd/cmd.go:195-198 | every fetch outcome goes to exactly one of the two channels |
| `Printer.HintEvents` | cmd/cmd.go:258 | the listing ends with a hint event exactly when the cursor is non-empty |
| `Printer.Dispatch` | cmd/cmd.go:202-208 | in identifiers-only mode every identifier is written at once, in arrival order, and nothing is buffered; otherwise every object is buffered in arrival order and nothing is written |
| `Printer.ReportOutcomes` | cmd/cmd.go:200-220 | an encoding failure of a non-empty buffer is returned, and nothing else is; identifiers-only mode writes exactly the identifier lines, then the error lines; otherwise exactly one list (for a non-empty buffer) comes before the error lines; no hint is written |
| `Printer.Print` | cmd/cmd.go:176-221 | the same, for the outcomes of fetching the identifiers collected from the selected reader |
| `Printer.PrintIter` | cmd/cmd.go:236-260 | an iterator error is returned before any buffered object or the hint is printed; otherwise the buffered list (if non-empty) comes before the hint, which is last exactly when the cursor is non-empty |
| `Printer.PrintCollection` | cmd/cmd.go:223-234 | a failure to build the iterator is returned with nothing printed; an iterator error is returned with no list and no hint printed |
| `Printer.NewApiClient` | cmd/cmd.go:148-154 | an empty API key yields the "API key is needed" error and no client; otherwise the client is built with the key and the agent `vt-cli <version>` |

## Left out

- Flag registration (`addAPIKeyFlag` … `addYAMLFlag`): they only declare flags and their defaults.
- `ReadFile`: file and standard-input I/O.
- `NewObjectPrinter`: it only wraps `NewAPIClient` and a buffered writer, so an empty key fails there as in `Printer.NewApiClient`.
- The `RetrieveObjects` goroutine and its channels: the fetch is one sequence of outcomes in delivery order. The client's promise of exactly one outcome per identifier belongs to the client, and the error channel's capacity is not modelled.
- Iterator internals (paging, the limit, retries): an iterator run is given by its items, its error and its cursor.
- `utils.FilterMap` glob semantics, and with them the idempotence of the field filter, and the standard-input and regular-expression readers: `utils` is not part of this model. The array reader is modelled as yielding each argument with no error and then an EOF error (`ArgReader.ArrayReads`).
- YAML colour encoding, ANSI output, the colour scheme and `bufio` flushing: the encoder is a function that only reports failure. After an encoding failure, output that was partly flushed is not modelled: the model prints nothing.
- Floating-point attribute values: numbers are integers, and no value is ever inspected.
- In-place mutation: Go writes folded relationships into the object's own attribute map, and quotes the flag set's argument slice in place. The model builds new values; `Projection.FoldTwice` shows that folding again is harmless.
- Hint.CommandLineWithCursor: the contract pins the banner, the command path and the trailing `--cursor=` flag, not the whole line. The middle parts are stated by `Hint.Quoted` and `Hint.HintFlagsRenderNonCursor`, and the whole line is checked on one example by `Hint.SearchHintExample`.
- Printer.PrintCollection: the contract states only the two error paths; the successful path is that of `Printer.PrintIter`.
- Printer.Successes: the contract states membership only; order and multiplicity are stated by `Printer.SuccessesAppend` and `Printer.ChannelsOfOne`.
- Printer.Failures: the contract states membership only; order and multiplicity are stated by `Printer.FailuresAppend` and `Printer.ChannelsOfOne`.
