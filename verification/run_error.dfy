/** Runtime error stacks: an error is a `Top` error, a `Stream` that wraps the error it came
    from with the place and a note, or a `MultiStream` that gathers several errors. */
module RunErrors {
  import opened Wrappers
  import opened Text

  datatype RunError =
    | Top(src: Option<string>, msg: string)
    | Stream(from: RunError, src: Option<string>, note: Option<string>)
    | MultiStream(errs: seq<RunError>, origin: string, note: Option<string>)

  /** What running a piece of code yields. `Ok` and `Err` are the source's `RunResult`;
      `Panic` stands for a Rust panic (an `unwrap` on nothing, `todo!`, `unreachable!`), which
      ends the program; `OutOfFuel` is the model's bound on nested calls. */
  datatype RunResult<+T> = Ok(value: T) | Err(error: RunError) | Panic(reason: string) | OutOfFuel
  {
    /** The run stopped for good: a panic or the fuel bound. */
    predicate Halted() { Panic? || OutOfFuel? }
  }

  /** A result that is not `Ok` passed on unchanged under another value type. */
  function Rethrow<T, U>(r: RunResult<T>): (u: RunResult<U>)
    requires !r.Ok?
    ensures r.Err? <==> u.Err?
    ensures r.Err? ==> u.error == r.error
    ensures r.Panic? <==> u.Panic?
    ensures r.Panic? ==> u.reason == r.reason
    ensures r.OutOfFuel? <==> u.OutOfFuel?
  {
    match r
    case Err(e) => Err(e)
    case Panic(m) => Panic(m)
    case OutOfFuel => OutOfFuel
  }

  /** The reason of the panic raised by `unwrap` on an absent value. */
  const UnwrapNone := "called `Option::unwrap()` on a `None` value"

  /** A plain message error (`From<String>`): a `Top` error without a source. */
  function FromString(msg: string): (e: RunError)
    ensures e.Top? && e.src.None? && e.msg == msg
  {
    Top(None, msg)
  }

  /** Gathers the errors of a batch: none gives `ok`, one is reported as it is, several are
      wrapped in a `MultiStream` caused by `program` in their original order. */
  function IntoResult<T>(errs: seq<RunError>, ok: T): (r: RunResult<T>)
    ensures r.Ok? <==> errs == []
    ensures r.Ok? ==> r.value == ok
    ensures r.Halted() == false
    ensures |errs| == 1 ==> r == Err(errs[0])
    ensures |errs| > 1 ==> r == Err(MultiStream(errs, "program", None))
  {
    if errs == [] then Ok(ok)
    else if |errs| == 1 then Err(errs[0])
    else Err(MultiStream(errs, "program", None))
  }

  /** The batch result cannot tell one `MultiStream` caused by `program` from the errors it
      gathers: both give the same result. */
  lemma IntoResultNotInjective<T>(errs: seq<RunError>, ok: T)
    requires |errs| > 1
    ensures IntoResult([MultiStream(errs, "program", None)], ok) == IntoResult(errs, ok)
    ensures [MultiStream(errs, "program", None)] != errs
  {
    assert |[MultiStream(errs, "program", None)]| == 1;
  }

  /** Human-readable text of an error stack. */
  function Display(e: RunError): (r: string)
    ensures e.Top? && e.src.Some? ==> r == "Caused by: " + e.src.value + "\nDue to " + e.msg
    ensures e.Top? && e.src.None? ==> r == "Caused by: " + e.msg
    ensures e.Stream? && e.note.Some? ==> |r| >= 6 + |e.note.value| && r[|r| - |e.note.value| - 6..] == "Note: " + e.note.value
    ensures e.MultiStream? ==> |r| >= |Header(e.origin)| + 26 && r[..|Header(e.origin)|] == Header(e.origin)
    ensures e.MultiStream? ==> r[|r| - 26..] == "End of Error Stream caused"
    decreases e, 0
  {
    match e
    case Top(Some(src), msg) => "Caused by: " + src + "\n" + "Due to " + msg
    case Top(None, msg) => "Caused by: " + msg
    case Stream(from, src, note) =>
      Display(from) + "\n"
      + (if src.Some? then "Happened at: " + src.value + "\n" else "")
      + (if note.Some? then "Note: " + note.value else "")
    case MultiStream(errs, origin, note) =>
      Framed(Header(origin), Lines(errs) + (if note.Some? then note.value + "\n" else ""), "End of Error Stream caused");
      Header(origin) + Lines(errs) + Footer(note)
  }

  /** The first line of a multi-stream: where the gathered errors come from. */
  function Header(origin: string): string
  {
    "Multiple Error Stream caused by: " + origin + "\n"
  }

  /** The end of a multi-stream: its note on a line of its own, then the closing words. */
  function Footer(note: Option<string>): string
  {
    (if note.Some? then note.value + "\n" else "") + "End of Error Stream caused"
  }

  /** Each error's text followed by a line break, in order. */
  function Lines(errs: seq<RunError>): string
    decreases errs
  {
    if errs == [] then "" else Line(errs[0]) + Lines(errs[1..])
  }

  /** An error's text followed by a line break. */
  function Line(e: RunError): string
    decreases e, 1
  {
    Display(e) + "\n"
  }

  /** The listing of a stream of errors is the listing of any prefix followed by the rest:
      every inner error is shown once, in order. */
  lemma {:induction false} LinesSplit(errs: seq<RunError>, k: nat)
    requires k <= |errs|
    ensures Lines(errs) == Lines(errs[..k]) + Lines(errs[k..])
  {
    if k == 0 {
      assert errs[..0] == [] && errs[0..] == errs;
    } else {
      LinesSplit(errs[1..], k - 1);
      assert errs[1..][..k - 1] == errs[..k][1..];
      assert errs[1..][k - 1..] == errs[k..];
      var head := Line(errs[0]);
      var x, y := Lines(errs[..k][1..]), Lines(errs[k..]);
      assert Lines(errs) == head + (x + y);
      assert errs[..k][0] == errs[0];
      assert Lines(errs[..k]) == head + x;
      assert head + (x + y) == (head + x) + y;
    }
  }

  /** The line of the `k`-th gathered error sits between the lines of the errors before it
      and those after it. */
  lemma ListedAt(errs: seq<RunError>, k: nat)
    requires k < |errs|
    ensures Lines(errs) == Lines(errs[..k]) + Line(errs[k]) + Lines(errs[k + 1..])
  {
    LinesSplit(errs, k);
    assert errs[k..][0] == errs[k] && errs[k..][1..] == errs[k + 1..];
    var before, line, after := Lines(errs[..k]), Line(errs[k]), Lines(errs[k + 1..]);
    assert Lines(errs[k..]) == line + after;
    assert before + (line + after) == before + line + after;
  }

  /** A top error starts with its cause: the source place when it has one, on a line of its
      own before the message, or else the message itself. */
  lemma TopDisplay(src: Option<string>, msg: string)
    ensures var t := Display(Top(src, msg));
      |t| >= 11 + |msg| && t[..11] == "Caused by: " && t[|t| - |msg|..] == msg
      && (src.None? ==> t[11..] == msg)
      && (src.Some? ==> t[11..11 + |src.value| + 1] == src.value + "\n")
  {
    var t := Display(Top(src, msg));
    if src.Some? {
      assert t == "Caused by: " + (src.value + "\n") + ("Due to " + msg);
    }
  }

  /** Regrouping five pieces of text. */
  lemma Regroup(a: string, b: string, c: string, d: string, e: string)
    ensures a + (b + c + d) + e == (a + b) + c + (d + e)
  {
  }

  /** A multi-stream shows its origin, then every gathered error on a line of its own and in
      order, then its note, then the closing line: the `k`-th error's line comes after the
      lines of the errors before it. */
  lemma MultiStreamListsEach(errs: seq<RunError>, origin: string, note: Option<string>, k: nat)
    requires k < |errs|
    ensures Display(MultiStream(errs, origin, note))
      == (Header(origin) + Lines(errs[..k])) + Line(errs[k]) + (Lines(errs[k + 1..]) + Footer(note))
  {
    ListedAt(errs, k);
    var head, tail := Header(origin), Footer(note);
    var before, line, after := Lines(errs[..k]), Line(errs[k]), Lines(errs[k + 1..]);
    assert Display(MultiStream(errs, origin, note)) == head + Lines(errs) + tail;
    Regroup(head, before, line, after, tail);
  }
}
