/**
 * The flag-string parser of the callback list and its memo table.
 *
 * A configuration string such as "once memory" is split at every run of
 * white space (the JavaScript pattern /\s+/) and each piece becomes a key
 * of the flag object. The parsed objects are remembered per input string.
 */
module Flags {

  /** The four options the callback list reads from a flag object. */
  datatype Options = Options(once: bool, memory: bool, unique: bool, stopOnFalse: bool)

  /** Reading the options off a flag object: an absent key reads as false. */
  function OptionsOf(obj: set<string>): Options
  {
    Options("once" in obj, "memory" in obj, "unique" in obj, "stopOnFalse" in obj)
  }

  /** The characters matched by the JavaScript class \s. */
  predicate IsSpace(c: char)
  {
    || c == '\t' || c == '\n' || c == '\U{000B}' || c == '\U{000C}' || c == '\r' || c == ' '
    || c == '\U{00A0}' || c == '\U{1680}' || ('\U{2000}' <= c <= '\U{200A}')
    || c == '\U{2028}' || c == '\U{2029}' || c == '\U{202F}' || c == '\U{205F}'
    || c == '\U{3000}' || c == '\U{FEFF}'
  }

  predicate NoSpace(t: string)
  {
    forall k :: 0 <= k < |t| ==> !IsSpace(t[k])
  }

  /** Drops the leading run of white space. */
  function DropSpaces(s: string): (r: string)
    ensures |r| <= |s| && (s != [] && IsSpace(s[0]) ==> |r| < |s|)
    ensures r == [] || !IsSpace(r[0])
    ensures forall k :: 0 <= k < |s| - |r| ==> IsSpace(s[k])
  {
    if s == [] || !IsSpace(s[0]) then s else DropSpaces(s[1..])
  }

  /** What is left after the leading white space is the rest of the text. */
  lemma {:induction false} DropSpacesIsRest(s: string)
    ensures DropSpaces(s) == s[|s| - |DropSpaces(s)|..]
    decreases |s|
  {
    if s != [] && IsSpace(s[0]) {
      DropSpacesIsRest(s[1..]);
      assert s[1..][|s| - 1 - |DropSpaces(s)|..] == s[|s| - |DropSpaces(s)|..];
    }
  }

  /**
   * `s.split(/\s+/)`: the pieces between maximal runs of white space. As in
   * JavaScript, a leading or trailing run yields an empty first or last piece
   * and the empty string splits into one empty piece.
   */
  function Split(s: string): (r: seq<string>)
    ensures |r| >= 1
    decreases |s|
  {
    if s == [] then [""]
    else if IsSpace(s[0]) then [""] + Split(DropSpaces(s))
    else
      var rest := Split(s[1..]);
      [[s[0]] + rest[0]] + rest[1..]
  }

  /** The keys `createFlags` sets to true. */
  function TokenSet(s: string): set<string>
  {
    Keys(Split(s))
  }

  /** The pieces as keys of a flag object. */
  function Keys(ps: seq<string>): set<string>
  {
    set t | t in ps
  }

  /** One more piece adds one key. */
  lemma KeysNext(ps: seq<string>, i: nat)
    requires i < |ps|
    ensures Keys(ps[..i + 1]) == Keys(ps[..i]) + {ps[i]}
  {
    assert ps[..i + 1] == ps[..i] + [ps[i]];
  }

  /** The words joined by single spaces. */
  function Join(ws: seq<string>): string
  {
    if ws == [] then "" else if |ws| == 1 then ws[0] else ws[0] + " " + Join(ws[1..])
  }

  function Concat(ws: seq<string>): string
  {
    if ws == [] then "" else ws[0] + Concat(ws[1..])
  }

  /** The non-white-space characters of `s`, in order. */
  function Strip(s: string): string
  {
    if s == [] then "" else (if IsSpace(s[0]) then "" else [s[0]]) + Strip(s[1..])
  }

  /** No piece of a split contains white space. */
  lemma {:induction false} SplitPiecesHaveNoSpace(s: string)
    ensures forall t :: t in Split(s) ==> NoSpace(t)
    decreases |s|
  {
    if s == [] {
    } else if IsSpace(s[0]) {
      SplitPiecesHaveNoSpace(DropSpaces(s));
    } else {
      SplitPiecesHaveNoSpace(s[1..]);
      var rest := Split(s[1..]);
      assert rest[0] in rest;
      forall t | t in Split(s) ensures NoSpace(t) {
        if t != [s[0]] + rest[0] {
          assert t in rest[1..];
        }
      }
    }
  }

  lemma StripOfSpaces(s: string, n: nat)
    requires n <= |s|
    requires forall k :: 0 <= k < n ==> IsSpace(s[k])
    ensures Strip(s) == Strip(s[n..])
    decreases n
  {
    if n > 0 {
      StripOfSpaces(s[1..], n - 1);
      assert s[1..][n - 1..] == s[n..];
    }
  }

  /** Splitting loses exactly the white space: the pieces concatenate to the non-space characters. */
  lemma {:induction false} SplitLosesOnlySpace(s: string)
    ensures Concat(Split(s)) == Strip(s)
    decreases |s|
  {
    if s == [] {
    } else if IsSpace(s[0]) {
      var d := DropSpaces(s);
      DropSpacesIsRest(s);
      SplitLosesOnlySpace(d);
      StripOfSpaces(s, |s| - |d|);
    } else {
      SplitLosesOnlySpace(s[1..]);
      var rest := Split(s[1..]);
      assert Concat(rest) == rest[0] + Concat(rest[1..]);
      assert Concat(Split(s)) == ([s[0]] + rest[0]) + Concat(rest[1..]);
    }
  }

  /** A word without white space is glued to the first piece of what follows it. */
  lemma {:induction false} SplitWordThen(w: string, s: string)
    requires NoSpace(w)
    ensures Split(w + s) == [w + Split(s)[0]] + Split(s)[1..]
    decreases |w|
  {
    var ps := Split(s);
    if w == [] {
      assert w + s == s && w + ps[0] == ps[0];
      assert ps == [ps[0]] + ps[1..];
    } else {
      var t := w + s;
      assert t[0] == w[0] && !IsSpace(t[0]);
      assert t[1..] == w[1..] + s;
      assert NoSpace(w[1..]) by {
        forall k | 0 <= k < |w[1..]| ensures !IsSpace(w[1..][k]) {
          assert w[1..][k] == w[k + 1];
        }
      }
      SplitWordThen(w[1..], s);
      var rest := Split(t[1..]);
      assert rest[0] == w[1..] + ps[0] && rest[1..] == ps[1..];
      assert [w[0]] + (w[1..] + ps[0]) == w + ps[0];
    }
  }

  /** Round trip: words without white space, joined by single spaces, split back into the same words. */
  lemma {:induction false} SplitJoin(ws: seq<string>)
    requires |ws| > 0
    requires forall k :: 0 <= k < |ws| ==> ws[k] != "" && NoSpace(ws[k])
    ensures Split(Join(ws)) == ws
  {
    if |ws| == 1 {
      SplitWordThen(ws[0], "");
      assert ws[0] + "" == ws[0];
    } else {
      SplitJoin(ws[1..]);
      JoinStartsWithFirst(ws[1..]);
      SplitWordSpaceThen(ws[0], Join(ws[1..]));
      assert [ws[0]] + ws[1..] == ws;
    }
  }

  /** A word, a single space and a text starting with a word split into the word and the pieces of the text. */
  lemma SplitWordSpaceThen(w: string, s: string)
    requires NoSpace(w)
    requires s != [] && !IsSpace(s[0])
    ensures Split(w + " " + s) == [w] + Split(s)
  {
    var sp := " " + s;
    SplitSpaceThen(s);
    SplitWordThen(w, sp);
    assert w + " " + s == w + sp;
    assert Split(sp)[0] == "" && Split(sp)[1..] == Split(s);
    assert w + "" == w;
  }

  /** A single space before a word splits off one empty piece. */
  lemma SplitSpaceThen(s: string)
    requires s != [] && !IsSpace(s[0])
    ensures Split(" " + s) == [""] + Split(s)
  {
    assert (" " + s)[1..] == s;
    assert DropSpaces(" " + s) == DropSpaces(s) == s;
  }

  lemma JoinStartsWithFirst(ws: seq<string>)
    requires |ws| > 0 && ws[0] != ""
    ensures Join(ws) != [] && Join(ws)[0] == ws[0][0]
  {
  }

  /** A configuration naming the four options yields exactly those options. */
  lemma {:induction false} OptionsOfJoined(ws: seq<string>)
    requires |ws| > 0
    requires forall k :: 0 <= k < |ws| ==> ws[k] != "" && NoSpace(ws[k])
    ensures OptionsOf(TokenSet(Join(ws))) ==
            Options("once" in ws, "memory" in ws, "unique" in ws, "stopOnFalse" in ws)
  {
    SplitJoin(ws);
  }

  /**
   * The memo table of parsed flag strings. Every entry is the parse of its
   * key: an entry is created once, filled in, and never changed afterwards.
   */
  class FlagsCache {
    var entries: map<string, set<string>>

    ghost predicate Valid()
      reads this
    {
      forall s :: s in entries ==> entries[s] == TokenSet(s)
    }

    constructor ()
      ensures Valid() && entries == map[]
    {
      entries := map[];
    }

    /**
     * `createFlags`: the entry for `flags` is created empty first and the
     * same object then receives one key per piece, so the table holds the
     * finished object when the loop ends.
     */
    method CreateFlags(flags: string) returns (obj: set<string>)
      requires Valid()
      modifies this
      ensures Valid()
      ensures obj == TokenSet(flags)
      ensures entries == old(entries)[flags := obj]
    {
      obj := {};
      entries := entries[flags := obj];
      var pieces := Split(flags);
      var i := 0;
      while i < |pieces|
        invariant 0 <= i <= |pieces|
        invariant obj == Keys(pieces[..i])
        invariant entries == old(entries)[flags := obj]
      {
        KeysNext(pieces, i);
        obj := obj + {pieces[i]};
        entries := entries[flags := obj];
        i := i + 1;
      }
      assert pieces[..i] == pieces;
    }

    /**
     * The flag lookup of the constructor: a falsy (empty) string gives no
     * flags and leaves the table alone; otherwise the cached object is reused,
     * or parsed and cached.
     */
    method Resolve(flags: string) returns (obj: set<string>)
      requires Valid()
      modifies this
      ensures Valid()
      ensures obj == if flags == "" then {} else TokenSet(flags)
      ensures flags == "" ==> entries == old(entries)
      ensures flags != "" ==> entries == old(entries)[flags := obj]
      ensures flags in old(entries) ==> entries == old(entries)
    {
      if flags == "" {
        obj := {};
      } else if flags in entries {
        obj := entries[flags];
      } else {
        obj := CreateFlags(flags);
      }
    }
  }
}
