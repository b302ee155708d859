/** JavaScript value semantics that the rest of the model relies on: string
    properties that may be `undefined` or `null` and their truthiness, `slice`/`substring`
    from index 0, `split(' ')`, `join` and an ASCII `toUpperCase`. */
module Js {

  /** An optional result: `None` where a step has failed. */
  datatype Option<+T> = None | Some(value: T)

  /** A property that holds a string, is `undefined` or is `null`. */
  datatype JsString = Undefined | Null | Str(value: string)

  /** JavaScript truthiness of such a property: `undefined`, `null` and `""`
      are falsy. */
  predicate Truthy(x: JsString) {
    x.Str? && x.value != ""
  }

  /** `x || d` with a string default: the value itself when it is truthy,
      otherwise the default. */
  function Or(x: JsString, d: string): (r: string)
    ensures Truthy(x) ==> r == x.value
    ensures !Truthy(x) ==> r == d
    ensures r == "" <==> !Truthy(x) && d == ""
  {
    if Truthy(x) then x.value else d
  }

  /** `x || y` where the alternative may itself be `undefined` or `null`. */
  function OrElse(x: JsString, y: JsString): (r: JsString)
    ensures Truthy(x) ==> r == x
    ensures !Truthy(x) ==> r == y
    ensures Truthy(r) <==> Truthy(x) || Truthy(y)
  {
    if Truthy(x) then x else y
  }

  /** The text a template literal `${x}` produces: the string itself,
      `"undefined"` or `"null"`. */
  function Show(x: JsString): (r: string)
    ensures x.Str? ==> r == x.value
    ensures x.Undefined? ==> r == "undefined"
    ensures x.Null? ==> r == "null"
    ensures r == "" <==> x == Str("")
  {
    match x
    case Undefined => "undefined"
    case Null => "null"
    case Str(s) => s
  }

  /** `s.slice(0, n)` on an array, `s.substring(0, n)` on a string: the first
      at most `n` elements, in order. */
  function Take<T>(s: seq<T>, n: nat): (r: seq<T>)
    ensures |r| == if |s| < n then |s| else n
    ensures r <= s
    ensures |s| <= n ==> r == s
  {
    if |s| <= n then s else s[..n]
  }

  /** `s?.substring(0, 150) || ''`: the first 150 characters of a text (all
      of a shorter one), or the empty string when it is absent or `null`. */
  function Excerpt(s: JsString): (r: string)
    ensures |r| <= 150
    ensures !s.Str? ==> r == ""
    ensures s.Str? ==> r <= s.value && |r| == (if |s.value| < 150 then |s.value| else 150)
  {
    if s.Str? then Take(s.value, 150) else ""
  }

  /** `s.split(c)` for a one-character separator: the maximal separator-free
      pieces, empty pieces included (`"".split(c)` is `[""]`). */
  function Split(s: string, c: char): (r: seq<string>)
    ensures |r| >= 1
    ensures forall w :: w in r ==> c !in w
    decreases |s|
  {
    if |s| == 0 then [""]
    else if s[0] == c then [""] + Split(s[1..], c)
    else
      var rest := Split(s[1..], c);
      [[s[0]] + rest[0]] + rest[1..]
  }

  /** `ws.join(sep)`. */
  function Join(ws: seq<string>, sep: string): string {
    if |ws| == 0 then ""
    else if |ws| == 1 then ws[0]
    else ws[0] + sep + Join(ws[1..], sep)
  }

  /** Joining the pieces of a split with the separator gives back the string. */
  lemma {:induction false} JoinSplit(s: string, c: char)
    ensures Join(Split(s, c), [c]) == s
    decreases |s|
  {
    if |s| > 0 {
      var rest := Split(s[1..], c);
      JoinSplit(s[1..], c);
      assert Join(rest, [c]) == s[1..];
      if s[0] == c {
        assert Split(s, c) == [""] + rest;
        assert s == [c] + s[1..];
      } else {
        var r := Split(s, c);
        assert r == [[s[0]] + rest[0]] + rest[1..];
        if |rest| == 1 {
          assert s == [s[0]] + rest[0];
        } else {
          assert Join(rest, [c]) == rest[0] + [c] + Join(rest[1..], [c]);
          assert r[1..] == rest[1..];
          assert s == [s[0]] + s[1..];
        }
      }
    }
  }

  /** A string without the separator splits into itself alone. */
  lemma {:induction false} SplitNoSeparator(w: string, c: char)
    requires c !in w
    ensures Split(w, c) == [w]
    decreases |w|
  {
    if |w| > 0 {
      SplitNoSeparator(w[1..], c);
      assert w == [w[0]] + w[1..];
    }
  }

  /** Splitting around one separator splits the two sides independently. */
  lemma {:induction false} SplitAround(a: string, b: string, c: char)
    ensures Split(a + [c] + b, c) == Split(a, c) + Split(b, c)
    decreases |a|
  {
    var s := a + [c] + b;
    if |a| == 0 {
      assert s[0] == c && s[1..] == b;
    } else {
      SplitAround(a[1..], b, c);
      assert s[0] == a[0] && s[1..] == a[1..] + [c] + b;
    }
  }

  /** Splitting a join of separator-free pieces gives back the pieces. */
  lemma {:induction false} SplitJoin(ws: seq<string>, c: char)
    requires |ws| >= 1
    requires forall w :: w in ws ==> c !in w
    ensures Split(Join(ws, [c]), c) == ws
    decreases |ws|
  {
    SplitNoSeparator(ws[0], c);
    if |ws| > 1 {
      SplitJoin(ws[1..], c);
      SplitAround(ws[0], Join(ws[1..], [c]), c);
      assert ws == [ws[0]] + ws[1..];
    }
  }

  /** Appending one more piece to a non-empty join. */
  lemma {:induction false} JoinAppend(ws: seq<string>, w: string, sep: string)
    requires |ws| >= 1
    ensures Join(ws + [w], sep) == Join(ws, sep) + sep + w
    decreases |ws|
  {
    if |ws| > 1 {
      JoinAppend(ws[1..], w, sep);
      assert (ws + [w])[1..] == ws[1..] + [w];
    }
  }

  /** A join begins with its first piece. */
  lemma {:induction false} JoinStartsWithFirst(ws: seq<string>, sep: string)
    requires |ws| >= 1
    ensures ws[0] <= Join(ws, sep)
  {
  }

  /** `toUpperCase` on one character, for the ASCII letters. */
  function UpperChar(c: char): char {
    if 'a' <= c <= 'z' then (c as int - 32) as char else c
  }

  /** `toUpperCase` on a string, character by character (ASCII letters only). */
  function Upper(s: string): (r: string)
    ensures |r| == |s|
    ensures forall i :: 0 <= i < |s| ==> r[i] == UpperChar(s[i])
  {
    seq(|s|, i requires 0 <= i < |s| => UpperChar(s[i]))
  }
}
