/** The `iniciais` shown on rendered slides: the first letter of each word of
    the lawyer's name, at most two of them, in upper case. */
module Branding {
  import opened Js

  /** The tokens that are not empty, in their original order. */
  function NonEmpty(tokens: seq<string>): (r: seq<string>)
    ensures |r| <= |tokens|
    ensures forall i :: 0 <= i < |r| ==> r[i] != "" && r[i] in tokens
    ensures (forall j :: 0 <= j < |tokens| ==> tokens[j] != "") ==> r == tokens
    decreases |tokens|
  {
    if |tokens| == 0 then []
    else (if tokens[0] == "" then [] else [tokens[0]]) + NonEmpty(tokens[1..])
  }

  /** Filtering distributes over concatenation: the non-empty tokens of
      `a + b` are those of `a` followed by those of `b`. */
  lemma {:induction false} NonEmptyConcat(a: seq<string>, b: seq<string>)
    ensures NonEmpty(a + b) == NonEmpty(a) + NonEmpty(b)
    decreases |a|
  {
    if |a| == 0 {
      assert a + b == b;
    } else {
      var ab := a + b;
      assert ab[0] == a[0] && ab[1..] == a[1..] + b;
      NonEmptyConcat(a[1..], b);
      var head := if a[0] == "" then [] else [a[0]];
      calc {
        NonEmpty(ab);
        head + NonEmpty(a[1..] + b);
        head + (NonEmpty(a[1..]) + NonEmpty(b));
        (head + NonEmpty(a[1..])) + NonEmpty(b);
      }
    }
  }

  /** A single token is kept exactly when it is not empty. */
  lemma NonEmptySingle(w: string)
    ensures NonEmpty([w]) == if w == "" then [] else [w]
  {
  }

  /** `tokens.map(n => n[0]).join('')`: the first character of every token. An
      empty token maps to `undefined`, which `join` turns into nothing, so the
      result is the first characters of the non-empty tokens, in order. */
  function FirstChars(tokens: seq<string>): (r: string)
    ensures |r| == |NonEmpty(tokens)|
    ensures forall i :: 0 <= i < |r| ==> r[i] == NonEmpty(tokens)[i][0]
    decreases |tokens|
  {
    if |tokens| == 0 then ""
    else (if tokens[0] == "" then "" else [tokens[0][0]]) + FirstChars(tokens[1..])
  }

  /** `nome ? nome.split(' ').map(n => n[0]).join('').substring(0, 2).toUpperCase() : ''`. */
  function Initials(nome: JsString): (r: string)
    ensures |r| <= 2
    ensures !Truthy(nome) ==> r == ""
  {
    if Truthy(nome) then Upper(Take(FirstChars(Split(nome.value, ' ')), 2)) else ""
  }

  /** The initials are the upper-cased first letters of the first two words
      of the name (one for a one-word name), however many spaces separate,
      precede or follow the words. */
  lemma {:induction false} InitialsOfWords(nome: string)
    ensures var words := NonEmpty(Split(nome, ' '));
      var r := Initials(Str(nome));
      && |r| == (if |words| < 2 then |words| else 2)
      && forall i :: 0 <= i < |r| ==> r[i] == UpperChar(words[i][0])
  {
    var words := NonEmpty(Split(nome, ' '));
    var chars := FirstChars(Split(nome, ' '));
    var r := Initials(Str(nome));
    if nome == "" {
      assert Split(nome, ' ') == [""];
    } else {
      assert r == Upper(Take(chars, 2));
      forall i | 0 <= i < |r|
        ensures r[i] == UpperChar(words[i][0])
      {
        assert Take(chars, 2)[i] == chars[i];
      }
    }
  }

  /** A name that does not start with a space has as first initial its own
      first character, upper-cased. */
  lemma FirstInitial(nome: string)
    requires |nome| > 0 && nome[0] != ' '
    ensures var r := Initials(Str(nome));
      |r| >= 1 && r[0] == UpperChar(nome[0])
  {
    var words := Split(nome, ' ');
    assert words[0][0] == nome[0];
    assert FirstChars(words)[0] == nome[0];
  }

  /** A name made only of spaces has no initials: every token is empty. */
  lemma {:induction false} BlankNameHasNoInitials(nome: string)
    requires forall i :: 0 <= i < |nome| ==> nome[i] == ' '
    ensures FirstChars(Split(nome, ' ')) == ""
    decreases |nome|
  {
    if |nome| > 0 {
      BlankNameHasNoInitials(nome[1..]);
    }
  }

  /** "Maria Silva Santos" gives "MS". */
  lemma InitialsOfMariaSilvaSantos()
    ensures Initials(Str("Maria Silva Santos")) == "MS"
  {
    var nome := "Maria Silva Santos";
    var words := ["Maria", "Silva", "Santos"];
    assert words[1..][1..] == ["Santos"];
    assert Join(words[1..], " ") == "Silva Santos";
    assert Join(words, " ") == nome;
    SplitJoin(words, ' ');
    assert NonEmpty(words) == words;
    InitialsOfWords(nome);
    var r := Initials(Str(nome));
    assert r[0] == UpperChar('M') == 'M';
    assert r[1] == UpperChar('S') == 'S';
  }

  /** A one-word name gives one initial: "ana" gives "A". */
  lemma InitialsOfAna()
    ensures Initials(Str("ana")) == "A"
  {
    SplitNoSeparator("ana", ' ');
    assert FirstChars(["ana"]) == "a";
  }

  /** The tokens of " Ana  Rui ": one empty token per extra space. */
  lemma SpacedNameTokens()
    ensures Split(" Ana  Rui ", ' ') == ["", "Ana", "", "Rui", ""]
  {
    var tokens := ["", "Ana", "", "Rui", ""];
    assert tokens[1..][1..][1..][1..] == [""];
    assert Join(tokens[1..][1..][1..], " ") == "Rui ";
    assert Join(tokens[1..][1..], " ") == " Rui ";
    assert Join(tokens[1..], " ") == "Ana  Rui ";
    assert Join(tokens, " ") == " Ana  Rui ";
    SplitJoin(tokens, ' ');
  }

  /** Extra spaces before, between or after the words change nothing:
      " Ana  Rui " gives "AR", as "Ana Rui" would. */
  lemma InitialsOfSpacedName()
    ensures Initials(Str(" Ana  Rui ")) == "AR"
  {
    var nome := " Ana  Rui ";
    SpacedNameTokens();
    var tokens := ["", "Ana", "", "Rui", ""];
    assert tokens[1..][1..][1..][1..] == [""];
    assert NonEmpty(tokens[1..][1..][1..]) == ["Rui"];
    assert NonEmpty(tokens) == ["Ana", "Rui"];
    InitialsOfWords(nome);
    var r := Initials(Str(nome));
    assert r[0] == UpperChar('A') == 'A';
    assert r[1] == UpperChar('R') == 'R';
  }
}
