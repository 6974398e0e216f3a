/** A flat document with cursors in it. */
module FlatDocument {
  /** A document is a sequence of characters and cursors. */
  datatype Item<T> = Char(c: char) | Cursor(at: T)

  function Chars<T>(s: string): seq<Item<T>> {
    seq(|s|, i requires 0 <= i < |s| => Char(s[i]))
  }

  /** The text of a document. */
  function TextOf<T>(doc: seq<Item<T>>): string {
    if doc == [] then []
    else
      var last := doc[|doc| - 1];
      TextOf(doc[..|doc| - 1]) + if last.Char? then [last.c] else []
  }

  /** Inserts at a cursor, right in front of it. */
  function Splice<T(==)>(doc: seq<Item<T>>, t: T, what: seq<Item<T>>): seq<Item<T>> {
    if doc == [] then []
    else if doc[0] == Cursor(t) then what + doc
    else [doc[0]] + Splice(doc[1..], t, what)
  }

  lemma {:induction false} SpliceThere<T>(before: seq<Item<T>>, t: T, behind: seq<Item<T>>, what: seq<Item<T>>)
    requires Cursor(t) !in before
    ensures Splice(before + [Cursor(t)] + behind, t, what) == before + what + [Cursor(t)] + behind
  {
    var doc := before + [Cursor(t)] + behind;
    if before == [] {
      assert doc == [Cursor(t)] + behind;
    } else {
      assert doc[1..] == before[1..] + [Cursor(t)] + behind;
      SpliceThere(before[1..], t, behind, what);
    }
  }

  lemma {:induction false} TextOfJoin<T>(a: seq<Item<T>>, b: seq<Item<T>>)
    ensures TextOf(a + b) == TextOf(a) + TextOf(b)
  {
    if b == [] {
      assert a + b == a;
    } else {
      assert (a + b)[..|a + b| - 1] == a + b[..|b| - 1];
      TextOfJoin(a, b[..|b| - 1]);
    }
  }

  lemma {:induction false} TextOfChars<T>(s: string)
    ensures TextOf(Chars<T>(s)) == s
  {
    if s != [] {
      assert Chars<T>(s)[..|s| - 1] == Chars(s[..|s| - 1]);
      TextOfChars<T>(s[..|s| - 1]);
    }
  }

  lemma {:induction false} CharsJoin<T>(a: string, b: string)
    ensures Chars<T>(a + b) == Chars(a) + Chars(b)
  {
  }

  lemma {:induction false} SpliceNothing<T>(doc: seq<Item<T>>, t: T)
    ensures Splice(doc, t, []) == doc
  {
    if doc != [] {
      SpliceNothing(doc[1..], t);
      assert [doc[0]] + doc[1..] == doc;
      assert [] + doc == doc;
    }
  }

  /** Cursors stay where they are, and those of what is inserted come in. */
  lemma {:induction false} SpliceKeeps<T>(doc: seq<Item<T>>, t: T, what: seq<Item<T>>, x: T)
    ensures Cursor(x) in doc ==> Cursor(x) in Splice(doc, t, what)
    ensures Cursor(t) in doc && Cursor(x) in what ==> Cursor(x) in Splice(doc, t, what)
    ensures Cursor(t) !in doc ==> Splice(doc, t, what) == doc
  {
    if doc != [] {
      assert doc == [doc[0]] + doc[1..];
      SpliceKeeps(doc[1..], t, what, x);
    }
  }
}
