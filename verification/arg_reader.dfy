/** How Print turns its arguments into the identifiers it fetches: the choice of
    reader (standard input for the single argument "-", the argument list
    otherwise, optionally behind a regular-expression filter) and the loop that
    keeps reading until a read returns an empty string together with an error. */
module ArgReader {
  import opened Wrappers

  /** One call of ReadString: the string read and the error returned with it. */
  datatype Read = Read(text: string, err: Option<string>)

  /** The error a reader reports once it has nothing more to give. */
  const EOF: string := "EOF"

  /** The collection loop stops at a read that is empty AND carries an error;
      an empty string read without an error is collected like any other. */
  predicate EndsCollection(r: Read) {
    r.text == "" && r.err.Some?
  }

  datatype ReaderKind = StdinReader | ArrayReader

  /** The regular-expression reader of the utils package, left uninterpreted: it
      maps the reads of the reader it wraps to the reads it returns. */
  type ReadFilter = seq<Read> -> seq<Read>

  /** Standard input is read exactly when the arguments are the single "-". */
  function SelectReader(args: seq<string>): (k: ReaderKind)
    ensures k == StdinReader <==> args == ["-"]
  {
    if |args| == 1 && args[0] == "-" then StdinReader else ArrayReader
  }

  /** The reads of the array reader: every argument without an error, then EOF. */
  function ArrayReads(args: seq<string>): (stream: seq<Read>)
    ensures |stream| == |args| + 1
    ensures forall i :: 0 <= i < |args| ==> stream[i] == Read(args[i], None)
    ensures stream[|args|] == Read("", Some(EOF))
  {
    seq(|args|, i requires 0 <= i < |args| => Read(args[i], None)) + [Read("", Some(EOF))]
  }

  /** The reads the collection loop sees: those of the selected reader, passed
      through the filter when a regular expression was given. */
  function ReaderStream(args: seq<string>, argFilter: Option<ReadFilter>, stdin: seq<Read>): (s: seq<Read>)
    ensures argFilter.None? && args == ["-"] ==> s == stdin
    ensures argFilter.None? && args != ["-"] ==> s == ArrayReads(args)
    ensures argFilter.Some? && args == ["-"] ==> s == argFilter.value(stdin)
    ensures argFilter.Some? && args != ["-"] ==> s == argFilter.value(ArrayReads(args))
  {
    var base := if SelectReader(args) == StdinReader then stdin else ArrayReads(args);
    if argFilter.Some? then argFilter.value(base) else base
  }

  /** The strings collected from `stream`: exactly the reads before the first one
      that ends collection (all of them when none does). */
  function Collected(stream: seq<Read>): (ids: seq<string>)
    ensures |ids| <= |stream|
    ensures forall j :: 0 <= j < |ids| ==> !EndsCollection(stream[j]) && ids[j] == stream[j].text
    ensures |ids| < |stream| ==> EndsCollection(stream[|ids|])
  {
    if |stream| == 0 || EndsCollection(stream[0]) then []
    else [stream[0].text] + Collected(stream[1..])
  }

  /** The collection loop of Print. */
  method CollectArgs(stream: seq<Read>) returns (ids: seq<string>)
    ensures ids == Collected(stream)
  {
    ids := [];
    var i := 0;
    while i < |stream| && !EndsCollection(stream[i])
      invariant 0 <= i <= |stream|
      invariant |ids| == i
      invariant forall j :: 0 <= j < i ==> !EndsCollection(stream[j]) && ids[j] == stream[j].text
    {
      ids := ids + [stream[i].text];
      i := i + 1;
    }
  }

  /** Every literal argument reaches the fetcher, empty ones included. */
  lemma ArrayArgsAllCollected(args: seq<string>)
    ensures Collected(ArrayReads(args)) == args
  {
  }

  /** A read that is empty but carries no error does not stop collection. */
  lemma {:induction false} EmptyReadWithoutErrorKept(pre: seq<Read>, post: seq<Read>)
    requires forall j :: 0 <= j < |pre| ==> !EndsCollection(pre[j])
    ensures Collected(pre + [Read("", None)] + post) == Collected(pre) + [""] + Collected(post)
  {
    var s := pre + [Read("", None)] + post;
    if |pre| == 0 {
      assert s[1..] == post;
    } else {
      assert s[1..] == pre[1..] + [Read("", None)] + post;
      EmptyReadWithoutErrorKept(pre[1..], post);
    }
  }
}
