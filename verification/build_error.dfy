/** Build-time error stacks, the static counterpart of the runtime ones: the source place is
    always known, so `src` is a plain text. */
module BuildErrors {
  import opened Wrappers
  import opened Text

  datatype BuildError =
    | Top(src: string, msg: string)
    | Stream(from: BuildError, src: string, note: Option<string>)
    | MultiStream(errs: seq<BuildError>, origin: string, note: Option<string>)

  /** Human-readable text of a build error stack. */
  function Display(e: BuildError): (r: string)
    ensures e.Top? ==> r == "Caused at: " + e.src + "\nDue to " + e.msg
    ensures e.Stream? && e.note.None? ==> |r| >= 11 + |e.src| && r[|r| - 11 - |e.src|..] == "Caused at: " + e.src
    ensures e.MultiStream? ==> |r| >= |Header(e.origin)| + 26 && r[..|Header(e.origin)|] == Header(e.origin)
    ensures e.MultiStream? ==> r[|r| - 26..] == "End of Error Stream caused"
    decreases e, 0
  {
    match e
    case Top(src, msg) => "Caused at: " + src + "\n" + "Due to " + msg
    case Stream(from, src, note) =>
      var place := "Caused at: " + src;
      var r := Display(from) + "\n" + place + (if note.Some? then "\n" + note.value else "");
      assert note.None? ==> r[|r| - |place|..] == place;
      r
    case MultiStream(errs, origin, note) =>
      Framed(Header(origin), Lines(errs) + (if note.Some? then note.value + "\n" else ""), "End of Error Stream caused");
      Header(origin) + Lines(errs) + Footer(note)
  }

  /** The first line of a multi-stream: where the gathered errors come from. */
  function Header(origin: string): string
  {
    "Multiple Error Stream caused by: " + origin + "\n"
  }

  /** The end of a multi-stream: its note on a line of its own, then the closing words. */
  function Footer(note: Option<string>): string
  {
    (if note.Some? then note.value + "\n" else "") + "End of Error Stream caused"
  }

  /** Each error's text followed by a line break, in order. */
  function Lines(errs: seq<BuildError>): string
    decreases errs
  {
    if errs == [] then "" else Line(errs[0]) + Lines(errs[1..])
  }

  /** An error's text followed by a line break. */
  function Line(e: BuildError): string
    decreases e, 1
  {
    Display(e) + "\n"
  }

  /** The listing of gathered errors is the listing of a prefix followed by the rest. */
  lemma {:induction false} LinesSplit(errs: seq<BuildError>, k: nat)
    requires k <= |errs|
    ensures Lines(errs) == Lines(errs[..k]) + Lines(errs[k..])
  {
    if k == 0 {
      assert errs[..0] == [] && errs[0..] == errs;
    } else {
      LinesSplit(errs[1..], k - 1);
      assert errs[1..][..k - 1] == errs[..k][1..];
      assert errs[1..][k - 1..] == errs[k..];
      var head := Line(errs[0]);
      var x, y := Lines(errs[..k][1..]), Lines(errs[k..]);
      assert Lines(errs) == head + (x + y);
      assert errs[..k][0] == errs[0];
      assert Lines(errs[..k]) == head + x;
      assert head + (x + y) == (head + x) + y;
    }
  }

  /** Regrouping five pieces of text. */
  lemma Regroup(a: string, b: string, c: string, d: string, e: string)
    ensures a + (b + c + d) + e == (a + b) + c + (d + e)
  {
  }

  /** The line of the `k`-th gathered error sits between the lines of the errors before it
      and those after it. */
  lemma ListedAt(errs: seq<BuildError>, k: nat)
    requires k < |errs|
    ensures Lines(errs) == Lines(errs[..k]) + Line(errs[k]) + Lines(errs[k + 1..])
  {
    LinesSplit(errs, k);
    assert errs[k..][0] == errs[k] && errs[k..][1..] == errs[k + 1..];
    var before, line, after := Lines(errs[..k]), Line(errs[k]), Lines(errs[k + 1..]);
    assert Lines(errs[k..]) == line + after;
    assert before + (line + after) == before + line + after;
  }

  /** A multi-stream shows its origin, then every gathered error on a line of its own and in
      order, then its note, then the closing line. */
  lemma MultiStreamListsEach(errs: seq<BuildError>, origin: string, note: Option<string>, k: nat)
    requires k < |errs|
    ensures Display(MultiStream(errs, origin, note))
      == (Header(origin) + Lines(errs[..k])) + Line(errs[k]) + (Lines(errs[k + 1..]) + Footer(note))
  {
    ListedAt(errs, k);
    var head, tail := Header(origin), Footer(note);
    var before, line, after := Lines(errs[..k]), Line(errs[k]), Lines(errs[k + 1..]);
    assert Display(MultiStream(errs, origin, note)) == head + Lines(errs) + tail;
    Regroup(head, before, line, after, tail);
  }

  /** A top error shows its source place on a line of its own, then the message. */
  lemma TopDisplay(src: string, msg: string)
    ensures var t := Display(Top(src, msg));
      |t| == 11 + |src| + 8 + |msg| && t[..11] == "Caused at: " && t[11..11 + |src| + 1] == src + "\n"
      && t[|t| - |msg| - 7..] == "Due to " + msg
  {
    var t := Display(Top(src, msg));
    assert t == "Caused at: " + (src + "\n") + ("Due to " + msg);
  }

  /** A stream's text starts with the text of the error it wraps, on its own line, and
      ends with its note when it has one. */
  lemma StreamDisplay(from: BuildError, src: string, note: string)
    ensures var t := Display(Stream(from, src, Some(note)));
      |t| > |Display(from)| + |note|
      && t[..|Display(from)| + 1] == Display(from) + "\n"
      && t[|t| - |note|..] == note
  {
  }
}
