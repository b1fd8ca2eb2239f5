/** The ObjectPrinter of cmd/cmd.go: Print fetches the objects named by its
    arguments, PrintIter drains a paginated iterator, and both either stream bare
    identifiers or buffer the objects for one PrintObjects call. What they write
    is modelled as a sequence of output events. */
module Printer {
  import opened Wrappers
  import opened Objects
  import opened Projection
  import opened ArgReader
  import opened Hint

  /** What the fetcher delivers for one identifier: the object, or an error. */
  datatype Outcome = Fetched(obj: Object) | Failed(error: string)

  /** The client's RetrieveObjects, left uninterpreted: given the object type and
      the identifiers it reports outcomes in completion order. */
  type Fetcher = (string, seq<string>) -> seq<Outcome>

  /** One piece of output: an identifier line on standard output, an encoded
      list of entries, an error line on standard error, or the cursor hint. */
  datatype Event =
    | IdLine(id: string)
    | Document(entries: seq<Entry>)
    | ErrorLine(message: string)
    | MoreWith(text: string)

  /** A drained iterator: the items it yielded, the error it stopped on (if
      any) and the cursor it reports afterwards. */
  datatype IterRun = IterRun(items: seq<Object>, error: Option<string>, cursor: string)

  /** The options a collection iterator is built with. */
  datatype IteratorOptions = IteratorOptions(limit: int, cursor: string, filter: string)

  const MissingApiKey: string :=
    "An API key is needed. Either use the --apikey flag or run \"vt init\" to set up your API key"

  /** The objects delivered on the success channel, in delivery order. */
  function Successes(outs: seq<Outcome>): (objs: seq<Object>)
    ensures |objs| <= |outs|
    ensures forall o :: o in objs <==> Fetched(o) in outs
  {
    if |outs| == 0 then []
    else (if outs[0].Fetched? then [outs[0].obj] else []) + Successes(outs[1..])
  }

  /** The errors delivered on the error channel, in delivery order. */
  function Failures(outs: seq<Outcome>): (errs: seq<string>)
    ensures |errs| <= |outs|
    ensures forall e :: e in errs <==> Failed(e) in outs
  {
    if |outs| == 0 then []
    else (if outs[0].Failed? then [outs[0].error] else []) + Failures(outs[1..])
  }

  /** The success channel of a concatenation is the concatenation of the success
      channels, and one outcome contributes its object exactly when it was fetched:
      together these pin both order and multiplicity. */
  lemma {:induction false} SuccessesAppend(a: seq<Outcome>, b: seq<Outcome>)
    ensures Successes(a + b) == Successes(a) + Successes(b)
    decreases |a|
  {
    if |a| > 0 {
      assert (a + b)[0] == a[0];
      assert (a + b)[1..] == a[1..] + b;
      SuccessesAppend(a[1..], b);
    } else {
      assert a + b == b;
    }
  }

  /** A single outcome reaches exactly one channel, once. */
  lemma ChannelsOfOne(x: Outcome)
    ensures Successes([x]) == if x.Fetched? then [x.obj] else []
    ensures Failures([x]) == if x.Failed? then [x.error] else []
  {
    assert [x][1..] == [];
  }

  /** The same for the error channel: each failed outcome is reported once, in
      delivery order. */
  lemma {:induction false} FailuresAppend(a: seq<Outcome>, b: seq<Outcome>)
    ensures Failures(a + b) == Failures(a) + Failures(b)
    decreases |a|
  {
    if |a| > 0 {
      assert (a + b)[0] == a[0];
      assert (a + b)[1..] == a[1..] + b;
      FailuresAppend(a[1..], b);
    } else {
      assert a + b == b;
    }
  }

  /** Every outcome lands on exactly one of the two channels. */
  lemma {:induction false} ChannelsPartitionOutcomes(outs: seq<Outcome>)
    ensures |Successes(outs)| + |Failures(outs)| == |outs|
  {
    if |outs| > 0 {
      ChannelsPartitionOutcomes(outs[1..]);
    }
  }

  function IdLines(objs: seq<Object>): (lines: seq<Event>)
    ensures |lines| == |objs|
    ensures forall i :: 0 <= i < |objs| ==> lines[i] == IdLine(objs[i].id)
  {
    if |objs| == 0 then []
    else IdLines(objs[..|objs| - 1]) + [IdLine(objs[|objs| - 1].id)]
  }

  function ErrorLines(errs: seq<string>): (lines: seq<Event>)
    ensures |lines| == |errs|
    ensures forall i :: 0 <= i < |errs| ==> lines[i] == ErrorLine(errs[i])
  {
    if |errs| == 0 then []
    else ErrorLines(errs[..|errs| - 1]) + [ErrorLine(errs[|errs| - 1])]
  }

  /** The hint event after a listing, if the cursor calls for one. */
  function HintEvents(cmd: CommandLine, cursor: string): (hint: seq<Event>)
    ensures |hint| <= 1
    ensures |hint| == 1 <==> cursor != ""
    ensures forall e :: e in hint ==> e.MoreWith?
  {
    match CommandLineWithCursor(cmd, cursor)
    case None => []
    case Some(text) => [MoreWith(text)]
  }

  /** The receiving loop shared by Print and PrintIter: in identifiers-only mode
      each object's identifier is written at once and nothing is kept; otherwise
      every object is buffered in arrival order. */
  method Dispatch(objs: seq<Object>, idsOnly: bool) returns (lines: seq<Event>, buffered: seq<Object>)
    ensures idsOnly ==> buffered == [] && lines == IdLines(objs)
    ensures !idsOnly ==> lines == [] && buffered == objs
  {
    lines := [];
    buffered := [];
    var i := 0;
    while i < |objs|
      invariant 0 <= i <= |objs|
      invariant idsOnly ==> buffered == [] && lines == IdLines(objs[..i])
      invariant !idsOnly ==> lines == [] && buffered == objs[..i]
    {
      if idsOnly {
        lines := lines + [IdLine(objs[i].id)];
      } else {
        buffered := buffered + [objs[i]];
      }
      assert objs[..i + 1] == objs[..i] + [objs[i]];
      i := i + 1;
    }
    assert objs[..i] == objs;
  }

  /** The part of Print after the fetch: write the received objects (or their
      identifiers), then report every fetch error. Only an encoding failure is
      returned; fetch errors are reported and the result is still success. */
  method ReportOutcomes(outs: seq<Outcome>, idsOnly: bool, p: Presenter)
    returns (events: seq<Event>, err: Option<string>)
    ensures var objs := Successes(outs);
      var fails := Failures(outs);
      && (err.Some? ==> !idsOnly && |objs| > 0 && err == PrintObjects(objs, p).err && events == [])
      && (!idsOnly && |objs| > 0 ==> (err.Some? <==> PrintObjects(objs, p).err.Some?))
      && (idsOnly ==> err.None? && events == IdLines(objs) + ErrorLines(fails))
      && (!idsOnly && err.None? ==>
            events == (if |objs| > 0 then [Document(PrintObjects(objs, p).doc)] else []) + ErrorLines(fails))
      && (err.None? ==>
            && |fails| <= |events|
            && events[|events| - |fails|..] == ErrorLines(fails)
            && forall j :: 0 <= j < |events| - |fails| ==> !events[j].ErrorLine?)
      && (forall e :: e in events ==> !e.MoreWith?)
      && (!idsOnly ==> forall e :: e in events ==> !e.IdLine?)
  {
    var objs := Successes(outs);
    var fails := Failures(outs);
    var buffered;
    events, buffered := Dispatch(objs, idsOnly);
    var shown := events;
    if |buffered| > 0 {
      var out := PrintObjects(buffered, p);
      if out.err.Some? {
        return events, out.err;
      }
      shown := events + [Document(out.doc)];
    }
    ErrorLinesLast(shown, fails);
    events := shown + ErrorLines(fails);
    err := None;
  }

  /** Print: collect the identifiers from the selected reader, fetch them and
      report the outcomes. */
  method Print(
    objType: string, args: seq<string>, argFilter: Option<ReadFilter>, stdin: seq<Read>,
    fetch: Fetcher, idsOnly: bool, p: Presenter)
    returns (events: seq<Event>, err: Option<string>)
    ensures var outs := fetch(objType, Collected(ReaderStream(args, argFilter, stdin)));
      var objs := Successes(outs);
      var fails := Failures(outs);
      && (err.Some? ==> !idsOnly && |objs| > 0 && err == PrintObjects(objs, p).err && events == [])
      && (!idsOnly && |objs| > 0 ==> (err.Some? <==> PrintObjects(objs, p).err.Some?))
      && (idsOnly ==> err.None? && events == IdLines(objs) + ErrorLines(fails))
      && (!idsOnly && err.None? ==>
            events == (if |objs| > 0 then [Document(PrintObjects(objs, p).doc)] else []) + ErrorLines(fails))
      && (err.None? ==>
            && |fails| <= |events|
            && events[|events| - |fails|..] == ErrorLines(fails)
            && forall j :: 0 <= j < |events| - |fails| ==> !events[j].ErrorLine?)
      && (forall e :: e in events ==> !e.MoreWith?)
      && (!idsOnly ==> forall e :: e in events ==> !e.IdLine?)
  {
    var stream := ReaderStream(args, argFilter, stdin);
    var ids := CollectArgs(stream);
    var outs := fetch(objType, ids);
    events, err := ReportOutcomes(outs, idsOnly, p);
  }

  /** Error lines appended after identifier lines and lists come last, and the
      whole holds no hint. */
  lemma ErrorLinesLast(shown: seq<Event>, fails: seq<string>)
    requires forall e :: e in shown ==> e.IdLine? || e.Document?
    ensures var all := shown + ErrorLines(fails);
      && |fails| <= |all|
      && all[|all| - |fails|..] == ErrorLines(fails)
      && (forall j :: 0 <= j < |all| - |fails| ==> !all[j].ErrorLine?)
      && (forall e :: e in all ==> !e.MoreWith?)
  {
    var all := shown + ErrorLines(fails);
    assert all[|shown|..] == ErrorLines(fails);
    forall j | 0 <= j < |shown| ensures !all[j].ErrorLine? {
      assert all[j] == shown[j] && shown[j] in shown;
    }
  }

  /** PrintIter: drain the iterator, stop with its error before printing any
      buffered object or the hint, otherwise print the buffer and then the hint. */
  method PrintIter(it: IterRun, idsOnly: bool, p: Presenter, cmd: CommandLine)
    returns (events: seq<Event>, err: Option<string>)
    ensures it.error.Some? ==>
      && err == it.error
      && events == (if idsOnly then IdLines(it.items) else [])
      && forall e :: e in events ==> !e.Document? && !e.MoreWith?
    ensures it.error.None? ==>
      (err.Some? <==> !idsOnly && |it.items| > 0 && PrintObjects(it.items, p).err.Some?)
    ensures it.error.None? && err.Some? ==> err == PrintObjects(it.items, p).err && events == []
    ensures it.error.None? && err.None? ==>
      && (|events| > 0 && events[|events| - 1].MoreWith? <==> it.cursor != "")
      && (idsOnly ==> events == IdLines(it.items) + HintEvents(cmd, it.cursor))
      && (!idsOnly && |it.items| > 0 ==>
            events == [Document(PrintObjects(it.items, p).doc)] + HintEvents(cmd, it.cursor))
      && (!idsOnly && |it.items| == 0 ==> events == HintEvents(cmd, it.cursor))
  {
    var buffered;
    events, buffered := Dispatch(it.items, idsOnly);
    if it.error.Some? {
      return events, it.error;
    }
    if |buffered| > 0 {
      var out := PrintObjects(buffered, p);
      if out.err.Some? {
        return events, out.err;
      }
      events := events + [Document(out.doc)];
    }
    events := events + HintEvents(cmd, it.cursor);
    err := None;
  }

  /** PrintCollection: build the iterator from the configured limit, cursor and
      filter; a failure to build it is returned with nothing printed. */
  method PrintCollection(
    limit: int, cursor: string, filter: string,
    newIterator: IteratorOptions -> Result<IterRun, string>,
    idsOnly: bool, p: Presenter, cmd: CommandLine)
    returns (events: seq<Event>, err: Option<string>)
    ensures var built := newIterator(IteratorOptions(limit, cursor, filter));
      && (built.Failure? ==> events == [] && err == Some(built.error))
      && (built.Success? && built.value.error.Some? ==>
            err == built.value.error && forall e :: e in events ==> !e.Document? && !e.MoreWith?)
  {
    var built := newIterator(IteratorOptions(limit, cursor, filter));
    if built.Failure? {
      return [], Some(built.error);
    }
    events, err := PrintIter(built.value, idsOnly, p, cmd);
  }

  /** NewAPIClient: an empty API key is refused before any client is built;
      otherwise the client is built with the key and a "vt-cli <version>" agent. */
  function NewApiClient<C>(apikey: string, version: string, connect: (string, string) -> Result<C, string>)
    : (r: Result<C, string>)
    ensures apikey == "" ==> r == Failure(MissingApiKey)
    ensures apikey != "" ==> r == connect(apikey, "vt-cli " + version)
  {
    if apikey == "" then Failure(MissingApiKey) else connect(apikey, "vt-cli " + version)
  }
}
