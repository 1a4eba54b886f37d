/**
 * The translation result area of the Tk applications, reduced to what the
 * translation logic writes into it: a sequence of text runs, each carrying
 * one of the tags the applications configure ("normal", "tiny_space",
 * "streaming") or no tag at all.
 */
module ResultBuffer {

  datatype Tag = Normal | TinySpace | Streaming | Untagged

  datatype Run = Run(text: string, tag: Tag)

  /** The characters shown in the widget, in order. */
  function Text(runs: seq<Run>): string
  {
    if runs == [] then [] else Text(runs[..|runs| - 1]) + runs[|runs| - 1].text
  }

  /** Tk stores no empty ranges: inserting "" leaves the widget as it was. */
  predicate NoEmptyRuns(runs: seq<Run>) {
    forall i :: 0 <= i < |runs| ==> runs[i].text != []
  }

  predicate AllTagged(runs: seq<Run>, tag: Tag) {
    forall i :: 0 <= i < |runs| ==> runs[i].tag == tag
  }

  /** `text.insert(tk.END, s, tag)`: a new run at the end, unless `s` is empty. */
  function Insert(runs: seq<Run>, s: string, tag: Tag): seq<Run>
  {
    if s == [] then runs else runs + [Run(s, tag)]
  }

  /** An insertion appends exactly `s` to the shown text, keeps what was there,
      and keeps the widget free of empty runs. */
  lemma InsertFacts(runs: seq<Run>, s: string, tag: Tag)
    ensures Text(Insert(runs, s, tag)) == Text(runs) + s
    ensures NoEmptyRuns(runs) ==> NoEmptyRuns(Insert(runs, s, tag))
    ensures AllTagged(runs, tag) ==> AllTagged(Insert(runs, s, tag), tag)
    ensures |runs| <= |Insert(runs, s, tag)| && Insert(runs, s, tag)[..|runs|] == runs
  {
    if s != [] {
      var r := runs + [Run(s, tag)];
      assert r[..|r| - 1] == runs;
    }
  }

  /** `text.delete("1.0", tk.END)` followed by `text.insert("1.0", s, tag)` */
  function Replace(s: string, tag: Tag): (r: seq<Run>)
    ensures Text(r) == s && NoEmptyRuns(r) && AllTagged(r, tag)
  {
    InsertFacts([], s, tag);
    Insert([], s, tag)
  }

  /** `text.get("1.0", tk.END)`: Tk always returns the widget's final newline too. */
  function TkGet(runs: seq<Run>): string
  {
    Text(runs) + "\n"
  }

  /** The text that remains after deleting every run carrying `tag`. */
  function TextWithout(runs: seq<Run>, tag: Tag): string
  {
    if runs == [] then []
    else
      var last := runs[|runs| - 1];
      TextWithout(runs[..|runs| - 1], tag) + (if last.tag == tag then [] else last.text)
  }

  /** Number of runs carrying `tag`. */
  function CountTag(runs: seq<Run>, tag: Tag): nat
  {
    if runs == [] then 0
    else CountTag(runs[..|runs| - 1], tag) + (if runs[|runs| - 1].tag == tag then 1 else 0)
  }

  lemma {:induction false} TextAppend(a: seq<Run>, b: seq<Run>)
    ensures Text(a + b) == Text(a) + Text(b)
    decreases |b|
  {
    if b != [] {
      var b' := b[..|b| - 1];
      assert (a + b)[..|a + b| - 1] == a + b';
      assert (a + b)[|a + b| - 1] == b[|b| - 1];
      TextAppend(a, b');
    } else {
      assert a + b == a;
    }
  }

  /** What one insertion adds to the text left after deleting `t` runs, and to their number. */
  lemma InsertEffect(runs: seq<Run>, s: string, tag: Tag, t: Tag)
    ensures TextWithout(Insert(runs, s, tag), t) == TextWithout(runs, t) + (if tag == t then [] else s)
    ensures CountTag(Insert(runs, s, tag), t) == CountTag(runs, t) + (if tag == t && s != [] then 1 else 0)
  {
    if s != [] {
      assert (runs + [Run(s, tag)])[..|runs|] == runs;
    }
  }

  /** In a widget whose runs all carry one tag, deleting a different tag removes nothing. */
  lemma {:induction false} TextWithoutOtherTag(runs: seq<Run>, tag: Tag, other: Tag)
    requires AllTagged(runs, tag) && tag != other
    ensures TextWithout(runs, other) == Text(runs) && CountTag(runs, other) == 0
    decreases |runs|
  {
    if runs != [] {
      TextWithoutOtherTag(runs[..|runs| - 1], tag, other);
    }
  }
}
