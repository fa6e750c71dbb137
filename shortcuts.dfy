/**
 * ShortcutsListProvider (isZoomUsingCamera/Model.swift): the output of
 * `shortcuts list` is split at newlines into shortcut names, dropping empty
 * pieces as Swift's `split(separator:)` does; a non-zero exit status is an error.
 */
module Shortcuts {
  import opened Wrappers

  const Newline: char := '\n'

  /** A name the split can produce: nonempty and free of newlines. */
  ghost predicate IsLine(p: string)
  {
    p != [] && Newline !in p
  }

  /** The piece being collected, when there is one. */
  function Flush(current: string): seq<string>
  {
    if current == [] then [] else [current]
  }

  /**
   * The maximal newline-free runs of `current + s`, where `current` is the
   * part of the piece already read.
   */
  function Lines(s: string, current: string): seq<string>
    decreases |s|
  {
    if s == [] then Flush(current)
    else if s[0] == Newline then Flush(current) + Lines(s[1..], [])
    else Lines(s[1..], current + [s[0]])
  }

  /** `s.split(separator: "\n")` with empty pieces omitted. */
  function SplitLines(s: string): seq<string>
  {
    Lines(s, [])
  }

  /** The names joined back with single newlines. */
  function Join(names: seq<string>): string
    decreases |names|
  {
    if names == [] then []
    else if |names| == 1 then names[0]
    else names[0] + [Newline] + Join(names[1..])
  }

  lemma {:induction false} LinesAreLines(s: string, current: string)
    requires Newline !in current
    ensures forall p | p in Lines(s, current) :: IsLine(p)
    decreases |s|
  {
    if s != [] {
      if s[0] == Newline {
        LinesAreLines(s[1..], []);
      } else {
        LinesAreLines(s[1..], current + [s[0]]);
      }
    }
  }

  /** A newline-free text is a single piece (or none when it is empty). */
  lemma {:induction false} LinesOfOneLine(s: string, current: string)
    requires Newline !in current && Newline !in s
    ensures Lines(s, current) == Flush(current + s)
    decreases |s|
  {
    if s == [] {
      assert current + s == current;
    } else {
      LinesOfOneLine(s[1..], current + [s[0]]);
      assert current + [s[0]] + s[1..] == current + s;
    }
  }

  /** Splitting distributes over a newline: the split is a homomorphism. */
  lemma {:induction false} LinesAtNewline(a: string, b: string, current: string)
    ensures Lines(a + [Newline] + b, current) == Lines(a, current) + Lines(b, [])
    decreases |a|
  {
    var s := a + [Newline] + b;
    if a == [] {
      assert s[0] == Newline && s[1..] == b;
    } else {
      assert s[0] == a[0] && s[1..] == a[1..] + [Newline] + b;
      if a[0] == Newline {
        LinesAtNewline(a[1..], b, []);
      } else {
        LinesAtNewline(a[1..], b, current + [a[0]]);
      }
    }
  }

  lemma SplitLinesAtNewline(a: string, b: string)
    ensures SplitLines(a + [Newline] + b) == SplitLines(a) + SplitLines(b)
  {
    LinesAtNewline(a, b, []);
  }

  lemma SplitLinesOfOneLine(s: string)
    requires IsLine(s)
    ensures SplitLines(s) == [s]
  {
    LinesOfOneLine(s, []);
    assert [] + s == s;
  }

  /** Every piece of a split is a nonempty, newline-free name. */
  lemma SplitLinesAreLines(s: string)
    ensures forall p | p in SplitLines(s) :: IsLine(p)
  {
    LinesAreLines(s, []);
  }

  /** Names joined with newlines split back into the same names. */
  lemma {:induction false} SplitJoin(names: seq<string>)
    requires forall p | p in names :: IsLine(p)
    ensures SplitLines(Join(names)) == names
    decreases |names|
  {
    if names == [] {
    } else if |names| == 1 {
      SplitLinesOfOneLine(names[0]);
    } else {
      SplitLinesAtNewline(names[0], Join(names[1..]));
      SplitLinesOfOneLine(names[0]);
      SplitJoin(names[1..]);
      assert names == [names[0]] + names[1..];
    }
  }

  datatype ShortcutsError = CanNotRetrieve(message: string)

  const CanNotRetrieveMessage := "Could not retrieve shortcuts list"

  /** What the model shows in place of the list when it cannot be read. */
  const Placeholder := "Could not retrieve list of shortcuts"

  /** ShortcutsListProvider.run, given the exit status and output of `shortcuts list`. */
  function ListShortcuts(exitCode: int, stdout: string): (r: Result<seq<string>, ShortcutsError>)
    ensures r.Success? <==> exitCode == 0
    ensures r.Success? ==> r.value == SplitLines(stdout) && forall p | p in r.value :: IsLine(p)
    ensures r.Failure? ==> r.error == CanNotRetrieve(CanNotRetrieveMessage)
  {
    if exitCode == 0 then
      SplitLinesAreLines(stdout);
      Success(SplitLines(stdout))
    else
      Failure(CanNotRetrieve(CanNotRetrieveMessage))
  }
}
