/**
 * The string operations the client uses to build display text:
 * `split(" ")`, `join("")`, `replace("_", " ")` (which replaces the FIRST
 * occurrence only, since the pattern is a string) and `toUpperCase()`.
 * Upper-casing is modelled on ASCII letters, which is all the role and status
 * names contain.
 */
module Text {

  /** `s.split(sep)`: the pieces between separators; never empty, `"".split(" ") == [""]`. */
  function Split(s: string, sep: char): (r: seq<string>)
    ensures |r| >= 1
    ensures forall i :: 0 <= i < |r| ==> sep !in r[i]
    decreases |s|
  {
    if |s| == 0 then [""]
    else
      var rest := Split(s[1..], sep);
      if s[0] == sep then [""] + rest
      else [[s[0]] + rest[0]] + rest[1..]
  }

  /** `ws.join(sep)`. */
  function Join(ws: seq<string>, sep: string): string
    decreases |ws|
  {
    if |ws| == 0 then ""
    else if |ws| == 1 then ws[0]
    else ws[0] + sep + Join(ws[1..], sep)
  }

  /** Joining the pieces of a split with the separator gives back the string. */
  lemma {:induction false} JoinSplit(s: string, sep: char)
    ensures Join(Split(s, sep), [sep]) == s
    decreases |s|
  {
    if |s| > 0 {
      var rest := Split(s[1..], sep);
      JoinSplit(s[1..], sep);
      if s[0] == sep {
        assert Split(s, sep) == [""] + rest;
        assert ([""] + rest)[1..] == rest;
        assert Join(Split(s, sep), [sep]) == "" + [sep] + Join(rest, [sep]);
        assert s == [s[0]] + s[1..];
      } else {
        var ws := [[s[0]] + rest[0]] + rest[1..];
        assert Split(s, sep) == ws;
        if |rest| == 1 {
          assert Join(ws, [sep]) == [s[0]] + rest[0];
          assert Join(rest, [sep]) == rest[0];
        } else {
          assert ws[1..] == rest[1..];
          assert Join(ws, [sep]) == [s[0]] + rest[0] + [sep] + Join(rest[1..], [sep]);
          assert Join(rest, [sep]) == rest[0] + [sep] + Join(rest[1..], [sep]);
        }
        assert s == [s[0]] + s[1..];
      }
    }
  }

  /** Splitting a join of separator-free pieces gives back the pieces. */
  lemma {:induction false} SplitJoin(ws: seq<string>, sep: char)
    requires |ws| >= 1
    requires forall i :: 0 <= i < |ws| ==> sep !in ws[i]
    ensures Split(Join(ws, [sep]), sep) == ws
    decreases |ws|, |ws[0]|
  {
    if |ws[0]| > 0 {
      // peel the first character of the first piece
      var c := ws[0][0];
      var ws' := [ws[0][1..]] + ws[1..];
      forall i | 0 <= i < |ws'| ensures sep !in ws'[i] {
        if i == 0 {
          assert forall x :: x in ws[0][1..] ==> x in ws[0];
        } else {
          assert ws'[i] == ws[i];
        }
      }
      SplitJoin(ws', sep);
      assert ws'[1..] == ws[1..];
      assert Join(ws, [sep]) == [c] + Join(ws', [sep]) by {
        if |ws| == 1 {
          assert ws[0] == [c] + ws[0][1..];
        } else {
          assert ws[0] == [c] + ws[0][1..];
          assert Join(ws, [sep]) == ws[0] + [sep] + Join(ws[1..], [sep]);
          assert Join(ws', [sep]) == ws[0][1..] + [sep] + Join(ws[1..], [sep]);
        }
      }
      var s := Join(ws, [sep]);
      assert s[0] == c && c != sep;
      assert s[1..] == Join(ws', [sep]);
      assert [c] + ws'[0] == ws[0];
      assert Split(s, sep) == [[c] + ws'[0]] + ws'[1..];
    } else if |ws| > 1 {
      var s := Join(ws, [sep]);
      assert ws[0] == "";
      assert s == [sep] + Join(ws[1..], [sep]);
      assert s[1..] == Join(ws[1..], [sep]);
      forall i | 0 <= i < |ws[1..]| ensures sep !in ws[1..][i] {
        assert ws[1..][i] == ws[i + 1];
      }
      SplitJoin(ws[1..], sep);
      assert Split(s, sep) == [""] + ws[1..];
    } else {
      assert ws == [""];
    }
  }

  /** `s.indexOf(c)`: the first position of `c`, or -1. */
  function IndexOf(s: string, c: char): (k: int)
    ensures -1 <= k < |s|
    ensures k == -1 <==> c !in s
    ensures k >= 0 ==> s[k] == c && forall j :: 0 <= j < k ==> s[j] != c
    decreases |s|
  {
    if |s| == 0 then -1
    else if s[0] == c then 0
    else
      var k := IndexOf(s[1..], c);
      assert s == [s[0]] + s[1..];
      if k == -1 then -1 else k + 1
  }

  /** `s.replace(from, to)` for one-character strings: only the first `from` is replaced. */
  function ReplaceFirst(s: string, from: char, to: char): (r: string)
    ensures |r| == |s|
    ensures from !in s ==> r == s
    ensures from in s ==> exists k :: (0 <= k < |s| && s[k] == from &&
      (forall j :: 0 <= j < k ==> s[j] != from) && r == s[k := to])
  {
    var k := IndexOf(s, from);
    if k < 0 then s else s[k := to]
  }

  /** `c.toUpperCase()` on ASCII. */
  function UpperChar(c: char): char {
    if 'a' <= c <= 'z' then (c as int - 32) as char else c
  }

  /** `s.toUpperCase()` on ASCII: each letter is upper-cased, other characters kept. */
  function ToUpper(s: string): (r: string)
    ensures |r| == |s|
    ensures forall i :: 0 <= i < |s| ==> r[i] == UpperChar(s[i])
  {
    seq(|s|, i requires 0 <= i < |s| => UpperChar(s[i]))
  }

  /** Upper-casing works character by character, so it distributes over concatenation. */
  lemma ToUpperAppend(a: string, b: string)
    ensures ToUpper(a + b) == ToUpper(a) + ToUpper(b)
  {
    assert forall i :: 0 <= i < |a + b| ==> ToUpper(a + b)[i] == (ToUpper(a) + ToUpper(b))[i];
  }

  /** `s.replace("_", " ").toUpperCase()`: the label the header badge and the chart axis show. */
  function DisplayLabel(s: string): (r: string)
    ensures |r| == |s|
    ensures '_' !in s ==> r == ToUpper(s)
    ensures '_' in s ==> exists k :: (0 <= k < |s| && s[k] == '_' && r[k] == ' ' &&
      (forall j :: 0 <= j < k ==> s[j] != '_') &&
      (forall i :: 0 <= i < |s| && i != k ==> r[i] == UpperChar(s[i])))
  {
    ToUpper(ReplaceFirst(s, '_', ' '))
  }

  /** The label of a string whose first `_` is at `k`: upper-cased, with a space at `k`. */
  lemma DisplayLabelAt(s: string, k: nat)
    requires k < |s| && s[k] == '_'
    requires forall j :: 0 <= j < k ==> s[j] != '_'
    ensures DisplayLabel(s) == ToUpper(s)[k := ' ']
  {
    var r := DisplayLabel(s);
    var k' :| 0 <= k' < |s| && s[k'] == '_' && r[k'] == ' ' &&
      (forall j :: 0 <= j < k' ==> s[j] != '_') &&
      (forall i :: 0 <= i < |s| && i != k' ==> r[i] == UpperChar(s[i]));
    assert k' == k;
  }

  /** A word pair joined by `_` is shown as the two words upper-cased with a space between. */
  lemma DisplayLabelJoin(a: string, b: string)
    requires '_' !in a
    ensures DisplayLabel(a + "_" + b) == ToUpper(a) + " " + ToUpper(b)
  {
    var s := a + "_" + b;
    assert s[|a|] == '_';
    DisplayLabelAt(s, |a|);
    assert forall i :: 0 <= i < |s| ==> DisplayLabel(s)[i] == (ToUpper(a) + " " + ToUpper(b))[i];
  }
}
