/** `components/document-editor/index.tsx`: the "Copy plain text" cleanup (runs of three or more
    line feeds become one blank line, then the text is trimmed), the command that brings
    incoming content into the editor, and when the floating menu shows. */
module DocumentEditor {

  import opened Wrappers
  import opened Text

  /** How many line feeds `s` starts with. */
  function NewlineRun(s: string): (k: nat)
    ensures k <= |s|
    ensures forall i :: 0 <= i < k ==> s[i] == '\n'
    ensures k < |s| ==> s[k] != '\n'
  {
    if s != [] && s[0] == '\n' then 1 + NewlineRun(s[1..]) else 0
  }

  /** `replace(/\n{3,}/g, '\n\n')`: every maximal run of at least three line feeds becomes
      exactly two; shorter runs and all other characters are copied. */
  function Collapse(s: string): (r: string)
    ensures |r| <= |s|
    ensures r != [] <==> s != []
    ensures r != [] ==> (r[0] == '\n' <==> s[0] == '\n')
    decreases |s|
  {
    if s == [] then []
    else if s[0] != '\n' then [s[0]] + Collapse(s[1..])
    else
      var k := NewlineRun(s);
      (if k >= 3 then "\n\n" else s[..k]) + Collapse(s[k..])
  }

  /** No three consecutive line feeds. */
  predicate NoTripleNewline(s: string) {
    forall i :: 0 <= i < |s| - 2 ==> !(s[i] == '\n' && s[i + 1] == '\n' && s[i + 2] == '\n')
  }

  /** Line feeds followed by text that does not start with one have no triple if the prefix
      has at most two line feeds and the rest has none. */
  lemma NoTripleAfterShortRun(p: string, rest: string)
    requires |p| <= 2 && forall i :: 0 <= i < |p| ==> p[i] == '\n'
    requires rest != [] ==> rest[0] != '\n'
    requires NoTripleNewline(rest)
    ensures NoTripleNewline(p + rest)
  {
    var s := p + rest;
    forall i | 0 <= i < |s| - 2
      ensures !(s[i] == '\n' && s[i + 1] == '\n' && s[i + 2] == '\n')
    {
      if i >= |p| {
        assert s[i] == rest[i - |p|] && s[i + 1] == rest[i - |p| + 1] && s[i + 2] == rest[i - |p| + 2];
      } else {
        assert |p| <= i + 2;
        assert s[|p|] == rest[0];
      }
    }
  }

  /** The collapsed text has no three consecutive line feeds. */
  lemma {:induction false} CollapseNoTriple(s: string)
    ensures NoTripleNewline(Collapse(s))
    decreases |s|
  {
    if s == [] {
    } else if s[0] != '\n' {
      CollapseNoTriple(s[1..]);
      var rest := Collapse(s[1..]);
      var r := [s[0]] + rest;
      forall i | 0 <= i < |r| - 2
        ensures !(r[i] == '\n' && r[i + 1] == '\n' && r[i + 2] == '\n')
      {
        if i > 0 {
          assert r[i] == rest[i - 1] && r[i + 1] == rest[i] && r[i + 2] == rest[i + 1];
        }
      }
    } else {
      var k := NewlineRun(s);
      CollapseNoTriple(s[k..]);
      var p := if k >= 3 then "\n\n" else s[..k];
      NoTripleAfterShortRun(p, Collapse(s[k..]));
    }
  }

  /** Text without a triple line feed is left as it is. */
  lemma {:induction false} CollapseFixpoint(s: string)
    requires NoTripleNewline(s)
    ensures Collapse(s) == s
    decreases |s|
  {
    if s == [] {
    } else if s[0] != '\n' {
      assert NoTripleNewline(s[1..]) by {
        forall i | 0 <= i < |s[1..]| - 2
          ensures !(s[1..][i] == '\n' && s[1..][i + 1] == '\n' && s[1..][i + 2] == '\n')
        {
          assert s[1..][i] == s[i + 1] && s[1..][i + 1] == s[i + 2] && s[1..][i + 2] == s[i + 3];
        }
      }
      CollapseFixpoint(s[1..]);
    } else {
      var k := NewlineRun(s);
      assert |s| < 3 || !(s[0] == '\n' && s[1] == '\n' && s[2] == '\n');
      NoTripleInSlice(s, k, |s|);
      CollapseFixpoint(s[k..]);
    }
  }

  /** A slice of a text without a triple line feed has none either. */
  lemma NoTripleInSlice(s: string, i: nat, j: nat)
    requires i <= j <= |s| && NoTripleNewline(s)
    ensures NoTripleNewline(s[i..j])
  {
    var t := s[i..j];
    forall k | 0 <= k < |t| - 2
      ensures !(t[k] == '\n' && t[k + 1] == '\n' && t[k + 2] == '\n')
    {
      assert t[k] == s[i + k] && t[k + 1] == s[i + k + 1] && t[k + 2] == s[i + k + 2];
    }
  }

  /** The characters of a text other than line feeds, in order. */
  function WithoutNewlines(s: string): (r: string)
    ensures |r| <= |s|
    ensures forall i :: 0 <= i < |r| ==> r[i] != '\n'
    decreases |s|
  {
    if s == [] then [] else (if s[0] == '\n' then [] else [s[0]]) + WithoutNewlines(s[1..])
  }

  lemma {:induction false} WithoutNewlinesAppend(a: string, b: string)
    ensures WithoutNewlines(a + b) == WithoutNewlines(a) + WithoutNewlines(b)
    decreases |a|
  {
    if a != [] {
      assert (a + b)[0] == a[0] && (a + b)[1..] == a[1..] + b;
      WithoutNewlinesAppend(a[1..], b);
    } else {
      assert a + b == b;
    }
  }

  lemma {:induction false} WithoutNewlinesOfRun(s: string)
    requires forall i :: 0 <= i < |s| ==> s[i] == '\n'
    ensures WithoutNewlines(s) == []
    decreases |s|
  {
    if s != [] {
      WithoutNewlinesOfRun(s[1..]);
    }
  }

  /** Collapsing removes line feeds only: every other character survives, in order. */
  lemma {:induction false} CollapseKeepsText(s: string)
    ensures WithoutNewlines(Collapse(s)) == WithoutNewlines(s)
    decreases |s|
  {
    if s == [] {
    } else if s[0] != '\n' {
      CollapseKeepsText(s[1..]);
      WithoutNewlinesAppend([s[0]], Collapse(s[1..]));
    } else {
      var k := NewlineRun(s);
      var p := if k >= 3 then "\n\n" else s[..k];
      CollapseKeepsText(s[k..]);
      WithoutNewlinesAppend(p, Collapse(s[k..]));
      WithoutNewlinesOfRun(p);
      assert s == s[..k] + s[k..];
      WithoutNewlinesAppend(s[..k], s[k..]);
      WithoutNewlinesOfRun(s[..k]);
    }
  }

  function Newlines(k: nat): (s: string)
    ensures |s| == k && forall i :: 0 <= i < k ==> s[i] == '\n'
  {
    seq(k, _ => '\n')
  }

  /** A run of line feeds is measured up to the first other character. */
  lemma {:induction false} NewlineRunOfConcat(a: string, b: string)
    ensures NewlineRun(a) < |a| ==> NewlineRun(a + b) == NewlineRun(a)
    ensures NewlineRun(a) == |a| && (b == [] || b[0] != '\n') ==> NewlineRun(a + b) == |a|
    decreases |a|
  {
    if a != [] {
      assert (a + b)[0] == a[0] && (a + b)[1..] == a[1..] + b;
      NewlineRunOfConcat(a[1..], b);
    } else {
      assert a + b == b;
    }
  }

  /** A run of line feeds at the front is replaced by two when it has at least three and kept
      otherwise; the rest is collapsed on its own. */
  lemma CollapseLeadingRun(k: nat, rest: string)
    requires rest != [] ==> rest[0] != '\n'
    ensures Collapse(Newlines(k) + rest) == (if k >= 3 then "\n\n" else Newlines(k)) + Collapse(rest)
  {
    var s := Newlines(k) + rest;
    if k == 0 {
      assert s == rest;
    } else {
      NewlineRunOfConcat(Newlines(k), rest);
      assert s[0] == '\n';
      assert s[..k] == Newlines(k) && s[k..] == rest;
    }
  }

  /** What `Collapse` writes for the run of line feeds at the front of `s`. */
  function RunReplacement(s: string): string
    requires NewlineRun(s) <= |s|
  {
    var k := NewlineRun(s);
    if k >= 3 then "\n\n" else s[..k]
  }

  lemma CollapseUnfold(s: string)
    requires s != []
    ensures s[0] != '\n' ==> Collapse(s) == [s[0]] + Collapse(s[1..])
    ensures s[0] == '\n' ==> Collapse(s) == RunReplacement(s) + Collapse(s[NewlineRun(s)..])
  {
  }

  /** Collapsing works separately on the two sides of any character other than a line feed. */
  lemma {:induction false} CollapseSplit(a: string, c: char, b: string)
    requires c != '\n'
    ensures Collapse(a + ([c] + b)) == Collapse(a) + ([c] + Collapse(b))
    decreases |a|
  {
    var tail := [c] + b;
    var right := [c] + Collapse(b);
    assert Collapse(tail) == right by {
      assert tail[0] == c && tail[1..] == b;
      CollapseUnfold(tail);
    }
    if a == [] {
      assert a + tail == tail;
      assert Collapse(a) + right == right;
    } else if a[0] != '\n' {
      var s := a + tail;
      assert s[0] == a[0] && s[1..] == a[1..] + tail;
      calc {
        Collapse(s);
        == { CollapseUnfold(s); }
        [a[0]] + Collapse(a[1..] + tail);
        == { CollapseSplit(a[1..], c, b); }
        [a[0]] + (Collapse(a[1..]) + right);
        ==
        ([a[0]] + Collapse(a[1..])) + right;
        == { CollapseUnfold(a); }
        Collapse(a) + right;
      }
    } else {
      CollapseSplitAtRun(a, c, b);
    }
  }

  /** Appending text that does not start with a line feed keeps the leading run and its
      replacement. */
  lemma RunOfConcat(a: string, tail: string)
    requires a != [] && a[0] == '\n' && tail != [] && tail[0] != '\n'
    ensures NewlineRun(a + tail) == NewlineRun(a)
    ensures (a + tail)[0] == '\n'
    ensures RunReplacement(a + tail) == RunReplacement(a)
  {
    NewlineRunOfConcat(a, tail);
    var k := NewlineRun(a);
    assert (a + tail)[..k] == a[..k];
  }

  /** The step of `CollapseSplit` for text that starts with a line feed. */
  lemma {:induction false} CollapseSplitAtRun(a: string, c: char, b: string)
    requires c != '\n' && a != [] && a[0] == '\n'
    ensures Collapse(a + ([c] + b)) == Collapse(a) + ([c] + Collapse(b))
    decreases |a|, 0
  {
    var tail := [c] + b;
    var right := [c] + Collapse(b);
    var s := a + tail;
    var k := NewlineRun(a);
    RunOfConcat(a, tail);
    var p := RunReplacement(a);
    if k < |a| {
      assert s[k..] == a[k..] + tail;
      calc {
        Collapse(s);
        == { CollapseUnfold(s); }
        p + Collapse(a[k..] + tail);
        == { CollapseSplit(a[k..], c, b); }
        p + (Collapse(a[k..]) + right);
        ==
        (p + Collapse(a[k..])) + right;
        == { CollapseUnfold(a); }
        Collapse(a) + right;
      }
    } else {
      CollapseRunBeforeChar(a, c, b);
    }
  }

  /** The step of `CollapseSplitAtRun` for text made only of line feeds. */
  lemma CollapseRunBeforeChar(a: string, c: char, b: string)
    requires c != '\n' && a != [] && a[0] == '\n' && NewlineRun(a) == |a|
    ensures Collapse(a + ([c] + b)) == Collapse(a) + ([c] + Collapse(b))
  {
    var tail := [c] + b;
    var s := a + tail;
    RunOfConcat(a, tail);
    var p := RunReplacement(a);
    assert s[|a|..] == tail;
    assert Collapse(tail) == [c] + Collapse(b) by {
      assert tail[0] == c && tail[1..] == b;
      CollapseUnfold(tail);
    }
    CollapseUnfold(s);
    assert Collapse(s) == p + Collapse(tail);
    CollapseUnfold(a);
    assert a[|a|..] == [];
    assert Collapse(a) == p;
  }

  /** The text the "Copy plain text" button puts on the clipboard. */
  function CleanPlainText(s: string): (r: string)
    ensures NoTripleNewline(r)
    ensures r != [] ==> !IsJsWhitespace(r[0]) && !IsJsWhitespace(r[|r| - 1])
  {
    var c := Collapse(s);
    CollapseNoTriple(s);
    TrimKeepsNoTriple(c);
    Trim(c)
  }

  /** Trimming cannot create a triple line feed. */
  lemma TrimKeepsNoTriple(s: string)
    requires NoTripleNewline(s)
    ensures NoTripleNewline(Trim(s))
  {
    var t := Trim(s);
    var i: nat, j: nat :| IsTrimmedSlice(s, t, i, j);
    assert t == s[i..j];
    assert i <= j;
    assert j <= |s|;
    NoTripleInSlice(s, i, j);
  }

  /** Cleaning twice is cleaning once. */
  lemma CleanIdempotent(s: string)
    ensures CleanPlainText(CleanPlainText(s)) == CleanPlainText(s)
  {
    var r := CleanPlainText(s);
    CollapseFixpoint(r);
    TrimUnpadded(r);
  }

  /** Cleaning drops only line feeds and white space at the two ends: the characters other
      than line feeds of the clean text are a contiguous part of those of the input. */
  lemma CleanKeepsText(s: string)
    ensures exists i: nat, j: nat :: IsTrimmedSlice(Collapse(s), CleanPlainText(s), i, j)
    ensures WithoutNewlines(Collapse(s)) == WithoutNewlines(s)
  {
    assert CleanPlainText(s) == Trim(Collapse(s));
    CollapseKeepsText(s);
  }

  /** The editor commands the content effect can issue. */
  datatype EditorCommand = SetContent(content: string) | InsertContent(content: string)

  /** The content effect: nothing for empty content or before the editor exists; an empty editor
      has its content replaced, a non-empty one has the content inserted. */
  function ContentCommand(content: string, editorReady: bool, editorEmpty: bool): (r: Option<EditorCommand>)
    ensures r.None? <==> content == [] || !editorReady
    ensures r.Some? ==> r.value.content == content
    ensures r.Some? ==> (r.value.SetContent? <==> editorEmpty)
  {
    if content != [] && editorReady then
      Some(if editorEmpty then SetContent(content) else InsertContent(content))
    else None
  }

  /** The floating menu's `shouldShow`: only in an editable, focused, non-empty editor, and
      there only for a collapsed selection at the start of its block. */
  function ShouldShow(editable: bool, focused: bool, empty: bool, selectionEmpty: bool, parentOffset: nat)
    : (show: bool)
    ensures show <==> editable && focused && !empty && selectionEmpty && parentOffset == 0
  {
    if !editable || !focused || empty then false
    else selectionEmpty && parentOffset == 0
  }
}
