/** What the selection of the combined document means as a whole. */
module SelectionMeaning {
  import opened Options
  import opened Json
  import opened Tokens
  import opened Renaming
  import opened Documents
  import opened Splitting
  import opened Combiner
  import opened Meaning

  /** What puts the alias in front of a field. */
  function Label(alias: string): seq<Piece> {
    [Plain(Word(alias)), Plain(Mark(':')), Plain(Mark(' '))]
  }

  /** The field of a slot with its own values in place, behind the alias. */
  function Labelled(part: Part): seq<Piece> {
    var indent := Indent(part.field);
    Instantiate(part.field[..indent], part.variables)
    + (Label(Alias(part.id)) + Instantiate(part.field[indent..], part.variables))
  }

  /** The fields of the first `n` parts one after the other. */
  function SideBySide(parts: seq<Part>, n: nat): seq<Piece>
    requires n <= |parts|
  {
    if n == 0 then [] else SideBySide(parts, n - 1) + Labelled(parts[n - 1])
  }

  // ----- Indentation -----

  function Marks(text: string): (tokens: seq<Token>)
    ensures |tokens| == |text|
  {
    seq(|text|, i requires 0 <= i < |text| => Mark(text[i]))
  }

  lemma TokeniseSpace(c: char, rest: string)
    requires IsWhitespace(c)
    ensures Tokenise([c] + rest) == [Mark(c)] + Tokenise(rest)
  {
    TokeniseMark(c, rest);
  }

  lemma MarksNext(c: char, blank: string)
    ensures Marks([c] + blank) == [Mark(c)] + Marks(blank)
  {}

  /** Whatever follows them, blanks are tokens of their own. */
  lemma {:induction false} TokeniseBlank(blank: string, rest: string)
    requires IsBlank(blank)
    ensures Tokenise(blank + rest) == Marks(blank) + Tokenise(rest)
  {
    hide FirstToken;
    hide IsWhitespace;
    if |blank| == 0 {
      assert blank + rest == rest;
    } else {
      TokeniseBlank(blank[1..], rest);
      TokeniseSpace(blank[0], blank[1..] + rest);
      assert blank == [blank[0]] + blank[1..];
      MarksNext(blank[0], blank[1..]);
      StringAssoc([blank[0]], blank[1..], rest);
      hide Tokenise;
      hide Marks;
    }
  }

  lemma {:induction false} RenameBlank(blank: string, rest: string, alias: string)
    requires IsBlank(blank)
    ensures Rename(blank + rest, alias) == blank + Rename(rest, alias)
  {
    hide Rename;
    if |blank| == 0 {
      assert blank + rest == rest;
    } else {
      RenameBlank(blank[1..], rest, alias);
      assert (blank + rest)[0] == blank[0] && (blank + rest)[1..] == blank[1..] + rest;
      RenamePlainChar(blank + rest, alias);
      assert blank == [blank[0]] + blank[1..];
      StringAssoc([blank[0]], blank[1..], Rename(rest, alias));
    }
  }

  // ----- One field -----

  /** The aliased field, written out from the parts of the original field. */
  lemma AliasedFieldText(part: Part)
    ensures AliasedField(part)
         == part.field[..Indent(part.field)]
            + (Alias(part.id) + (": " + Rename(part.field[Indent(part.field)..], Alias(part.id))))
  {
    var blank, rest := part.field[..Indent(part.field)], part.field[Indent(part.field)..];
    assert part.field == blank + rest;
    IndentMeans(part.field);
    RenameBlank(blank, rest, Alias(part.id));
    RenameSameHead(rest, Alias(part.id));
    var renamed := Rename(rest, Alias(part.id));
    IndentOf(blank, renamed);
    assert (blank + renamed)[..|blank|] == blank && (blank + renamed)[|blank|..] == renamed;
  }

  lemma TokeniseLabelled(alias: string, field: string)
    requires IsName(alias) && |alias| > 0
    ensures Tokenise(alias + (": " + field)) == [Word(alias)] + ([Mark(':')] + ([Mark(' ')] + Tokenise(field)))
  {
    TokeniseMark(' ', field);
    TokeniseMark(':', [' '] + field);
    assert ": " + field == [':'] + ([' '] + field);
    TokeniseStep(Word(alias), [':'] + ([' '] + field));
  }

  lemma InstantiateConcat(a: seq<Token>, b: seq<Token>, variables: map<string, Json>)
    ensures InstantiateTokens(a + b, variables) == InstantiateTokens(a, variables) + InstantiateTokens(b, variables)
  {}

  lemma InstantiateLabel(alias: string, tokens: seq<Token>, variables: map<string, Json>)
    ensures InstantiateTokens([Word(alias)] + ([Mark(':')] + ([Mark(' ')] + tokens)), variables)
         == Label(alias) + InstantiateTokens(tokens, variables)
  {}

  lemma InstantiateMarks(text: string, variables: map<string, Json>, others: map<string, Json>)
    ensures InstantiateTokens(Marks(text), variables) == InstantiateTokens(Marks(text), others)
  {}

  lemma InstantiateBlank(blank: string, rest: string, variables: map<string, Json>, others: map<string, Json>)
    requires IsBlank(blank)
    ensures Instantiate(blank + rest, variables) == Instantiate(blank, others) + Instantiate(rest, variables)
  {
    TokeniseBlank(blank, rest);
    TokeniseBlank(blank, "");
    assert blank + "" == blank && Marks(blank) + [] == Marks(blank);
    InstantiateConcat(Marks(blank), Tokenise(rest), variables);
    InstantiateMarks(blank, variables, others);
  }

  /** An aliased field with the combined variables is the slot's field with its own variables, behind the alias. */
  lemma AliasedFieldMeans(parts: seq<Part>, i: nat, combined: map<string, Json>)
    requires i < |parts| && Ascending(parts) && Scoped(parts, |parts|, combined)
    ensures Instantiate(AliasedField(parts[i]), combined) == Labelled(parts[i])
  {
    var part := parts[i];
    var alias := Alias(part.id);
    var blank, rest := part.field[..Indent(part.field)], part.field[Indent(part.field)..];
    AliasedFieldText(part);
    AliasIsName(part.id);
    IndentMeans(part.field);
    InstantiateBlank(blank, alias + (": " + Rename(rest, alias)), combined, part.variables);
    TokeniseLabelled(alias, Rename(rest, alias));
    InstantiateLabel(alias, Tokenise(Rename(rest, alias)), combined);
    MeaningPreserved(parts, i, combined, rest);
  }

  // ----- All fields -----

  /** A root field as cynic prints it: indented, and with every literal closed. */
  predicate Delimited(part: Part) {
    |part.field| > 0 && IsWhitespace(part.field[0]) && AllClosed(Tokenise(part.field))
  }

  ghost predicate AllDelimited(parts: seq<Part>) {
    forall i :: 0 <= i < |parts| ==> Delimited(parts[i])
  }

  lemma AllClosedRenamed(tokens: seq<Token>, alias: string)
    requires AllClosed(tokens)
    ensures AllClosed(RenameTokens(tokens, alias))
  {}

  lemma AllClosedBack(a: seq<Token>, b: seq<Token>)
    requires AllClosed(a + b)
    ensures AllClosed(b)
  {
    assert forall i :: 0 <= i < |b| ==> b[i] == (a + b)[|a| + i];
  }

  lemma RestIsClosed(part: Part)
    requires Delimited(part)
    ensures AllClosed(Tokenise(part.field[Indent(part.field)..]))
  {
    var blank, rest := part.field[..Indent(part.field)], part.field[Indent(part.field)..];
    assert part.field == blank + rest;
    IndentMeans(part.field);
    TokeniseBlank(blank, rest);
    AllClosedBack(Marks(blank), Tokenise(rest));
  }

  lemma LabelledIsClosed(alias: string, tokens: seq<Token>)
    requires AllClosed(tokens)
    ensures AllClosed([Word(alias)] + ([Mark(':')] + ([Mark(' ')] + tokens)))
  {
    AllClosedParts(Mark(' '), tokens);
    AllClosedParts(Mark(':'), [Mark(' ')] + tokens);
    AllClosedParts(Word(alias), [Mark(':')] + ([Mark(' ')] + tokens));
  }

  lemma AliasedFieldIsClosed(part: Part)
    requires Delimited(part)
    ensures AllClosed(Tokenise(AliasedField(part)))
  {
    var alias := Alias(part.id);
    var blank, rest := part.field[..Indent(part.field)], part.field[Indent(part.field)..];
    AliasedFieldText(part);
    AliasIsName(part.id);
    IndentMeans(part.field);
    RestIsClosed(part);
    RenameCommutes(rest, alias);
    AllClosedRenamed(Tokenise(rest), alias);
    TokeniseLabelled(alias, Rename(rest, alias));
    LabelledIsClosed(alias, Tokenise(Rename(rest, alias)));
    TokeniseBlank(blank, alias + (": " + Rename(rest, alias)));
    AllClosedConcat(Marks(blank), Tokenise(alias + (": " + Rename(rest, alias))));
  }

  lemma AliasedFieldIsNeutral(part: Part)
    requires Delimited(part)
    ensures Neutral(AliasedField(part))
  {
    AliasedFieldText(part);
    assert AliasedField(part)[0] == part.field[0];
  }

  lemma ConcatNext(fields: seq<string>, field: string)
    ensures Concat(fields + [field]) == Concat(fields) + field
  {
    assert (fields + [field])[..|fields|] == fields;
  }

  lemma TokeniseFieldsNext(fields: seq<string>, field: string)
    requires AllClosed(Tokenise(Concat(fields))) && Neutral(field)
    ensures Tokenise(Concat(fields + [field])) == Tokenise(Concat(fields)) + Tokenise(field)
  {
    ConcatNext(fields, field);
    TokeniseConcat(Concat(fields), field);
  }

  lemma FieldsStayClosed(fields: seq<string>, field: string)
    requires AllClosed(Tokenise(Concat(fields))) && AllClosed(Tokenise(field)) && Neutral(field)
    ensures AllClosed(Tokenise(Concat(fields + [field])))
  {
    TokeniseFieldsNext(fields, field);
    AllClosedConcat(Tokenise(Concat(fields)), Tokenise(field));
  }

  lemma NoFields(variables: map<string, Json>)
    ensures AllClosed(Tokenise(Concat([]))) && Instantiate(Concat([]), variables) == []
  {}

  lemma {:induction false} FieldsAreClosed(parts: seq<Part>, n: nat)
    requires n <= |parts| && AllDelimited(parts)
    ensures AllClosed(Tokenise(Concat(Fields(parts, n))))
  {
    hide AliasedField;
    hide Tokenise;
    hide AllClosed;
    hide Delimited;
    hide Neutral;
    if n == 0 {
      NoFields(map[]);
    } else {
      FieldsAreClosed(parts, n - 1);
      AliasedFieldIsNeutral(parts[n - 1]);
      AliasedFieldIsClosed(parts[n - 1]);
      FieldsStayClosed(Fields(parts, n - 1), AliasedField(parts[n - 1]));
    }
  }

  // ----- Fields side by side -----

  /** The tokens of the first `n` fields, each tokenised by itself. */
  function OwnTokens(fields: seq<string>, n: nat): seq<Token>
    requires n <= |fields|
  {
    if n == 0 then [] else OwnTokens(fields, n - 1) + Tokenise(fields[n - 1])
  }

  /** No token of the first `n` fields grows into the field after it. */
  predicate SeamsHold(fields: seq<string>, n: nat)
    requires n <= |fields|
  {
    n == 0 || (SeamsHold(fields, n - 1) && Seam(Concat(fields[..n - 1]), fields[n - 1]))
  }

  lemma ConcatFront(fields: seq<string>, n: nat)
    requires n < |fields|
    ensures Concat(fields[..n + 1]) == Concat(fields[..n]) + fields[n]
  {
    assert fields[..n + 1] == fields[..n] + [fields[n]];
    ConcatNext(fields[..n], fields[n]);
    hide Concat;
  }

  lemma {:induction false} TextOfOwnTokens(fields: seq<string>, n: nat)
    requires n <= |fields|
    ensures Text(OwnTokens(fields, n)) == Concat(fields[..n])
  {
    hide Tokenise;
    if n > 0 {
      hide Text;
      hide Concat;
      TextOfOwnTokens(fields, n - 1);
      TextConcat(OwnTokens(fields, n - 1), Tokenise(fields[n - 1]));
      TextOfTokens(fields[n - 1]);
      ConcatFront(fields, n - 1);
    }
  }

  /** What keeps its tokens as a whole keeps those of every part of its front. */
  lemma FrontKeepsTokens(front: seq<Token>, back: seq<Token>, text: string)
    requires Tokenise(text) == front + back
    ensures Tokenise(Text(front)) == front
  {
    TokenisePrefix(text, |front|);
    assert (front + back)[..|front|] == front;
  }

  /** Fields put next to each other keep their tokens if and only if every seam between them holds. */
  lemma {:induction false} FieldsKeepTheirTokens(fields: seq<string>, n: nat)
    requires n <= |fields|
    ensures Tokenise(Concat(fields[..n])) == OwnTokens(fields, n) <==> SeamsHold(fields, n)
  {
    if n == 0 {
      assert fields[..0] == [];
    } else {
      var front, field := Concat(fields[..n - 1]), fields[n - 1];
      assert fields[..n] == fields[..n - 1] + [field];
      ConcatNext(fields[..n - 1], field);
      FieldsKeepTheirTokens(fields, n - 1);
      SeamIsExact(front, field);
      TextOfOwnTokens(fields, n - 1);
      hide Tokenise;
      hide Seam;
      if Tokenise(front + field) == OwnTokens(fields, n) {
        FrontKeepsTokens(OwnTokens(fields, n - 1), Tokenise(field), front + field);
      }
    }
  }

  // ----- Meanings tell tokens apart -----

  /** A token as the tokeniser makes them. */
  predicate IsProper(token: Token) {
    match token
    case Literal(text) => |text| > 0 && text[0] == '"'
    case Variable(name) => |name| > 0 && IsName(name)
    case Word(text) => |text| > 0 && IsName(text)
    case Mark(c) => c != '"' && !IsNameChar(c)
  }

  predicate AllProper(tokens: seq<Token>) {
    forall i :: 0 <= i < |tokens| ==> IsProper(tokens[i])
  }

  lemma {:induction false} TokeniseIsProper(text: string)
    ensures AllProper(Tokenise(text))
    decreases |text|
  {
    if |text| > 0 {
      FirstTokenSeparates(text);
      TokeniseIsProper(AfterFirst(text));
    }
  }

  lemma {:induction false} OwnTokensAreProper(fields: seq<string>, n: nat)
    requires n <= |fields|
    ensures AllProper(OwnTokens(fields, n))
  {
    if n > 0 {
      OwnTokensAreProper(fields, n - 1);
      TokeniseIsProper(fields[n - 1]);
    }
    hide IsProper;
    hide Tokenise;
  }

  /** A variable that is read as a longer one is followed by a word there, and by no word in the longer reading. */
  lemma LongerVariableShows(text: string, tokens: seq<Token>, variables: map<string, Json>)
    requires |tokens| > 0 && AllProper(tokens) && Text(tokens) == text && tokens[0].Variable?
    requires |text| > 0 && FirstToken(text).Variable? && FirstToken(text) != tokens[0]
    requires |Tokenise(text)| == |tokens|
    ensures |tokens| > 1 && Resolve(Tokenise(text)[1], variables) != Resolve(tokens[1], variables)
  {
    var rest := Text(tokens[1..]);
    if Separates(tokens[0], rest) {
      ReadBack(tokens[0], rest);
      assert false;
    }
    assert |rest| > 0 && IsNameChar(rest[0]) && |tokens| > 1;
    WordStarts(tokens[1..]);
    FirstTokenSeparates(text);
    assert |AfterFirst(text)| > 0 && !IsNameChar(AfterFirst(text)[0]);
    NoWordStarts(AfterFirst(text));
  }

  lemma WordStarts(tokens: seq<Token>)
    requires |tokens| > 0 && AllProper(tokens) && |Text(tokens)| > 0 && IsNameChar(Text(tokens)[0])
    ensures tokens[0].Word?
  {
    assert IsProper(tokens[0]);
    assert Text(tokens) == TokenText(tokens[0]) + Text(tokens[1..]);
    assert |TokenText(tokens[0])| > 0 && Text(tokens)[0] == TokenText(tokens[0])[0];
  }

  lemma NoWordStarts(text: string)
    requires |text| > 0 && !IsNameChar(text[0])
    ensures !Tokenise(text)[0].Word?
  {}

  lemma InstantiatedAt(tokens: seq<Token>, others: seq<Token>, variables: map<string, Json>)
    requires InstantiateTokens(tokens, variables) == InstantiateTokens(others, variables)
    ensures |tokens| == |others|
    ensures forall i :: 0 <= i < |tokens| ==> Resolve(tokens[i], variables) == Resolve(others[i], variables)
    ensures |tokens| > 0 ==> InstantiateTokens(tokens[1..], variables) == InstantiateTokens(others[1..], variables)
  {
    var pieces := InstantiateTokens(tokens, variables);
    assert |pieces| == |tokens| && |InstantiateTokens(others, variables)| == |others|;
    forall i | 0 <= i < |tokens|
      ensures Resolve(tokens[i], variables) == Resolve(others[i], variables)
    {
      assert pieces[i] == Resolve(tokens[i], variables);
    }
  }

  lemma SameHeadToken(text: string, tokens: seq<Token>, variables: map<string, Json>)
    requires |tokens| > 0 && AllProper(tokens) && Text(tokens) == text && |text| > 0
    requires InstantiateTokens(Tokenise(text), variables) == InstantiateTokens(tokens, variables)
    ensures FirstToken(text) == tokens[0]
  {
    InstantiatedAt(Tokenise(text), tokens, variables);
    assert Resolve(FirstToken(text), variables) == Resolve(tokens[0], variables);
    hide AllProper;
    hide InstantiateTokens;
    hide FirstToken;
    hide AfterFirst;
    if FirstToken(text).Variable? && FirstToken(text) != tokens[0] {
      LongerVariableShows(text, tokens, variables);
    }
  }

  /** Two ways to cut a text that mean the same, whatever the values, are the same. */
  lemma {:induction false} SameMeaningSameTokens(text: string, tokens: seq<Token>, variables: map<string, Json>)
    requires AllProper(tokens) && Text(tokens) == text
    requires InstantiateTokens(Tokenise(text), variables) == InstantiateTokens(tokens, variables)
    ensures Tokenise(text) == tokens
    decreases |tokens|
  {
    InstantiatedAt(Tokenise(text), tokens, variables);
    if |tokens| > 0 {
      SameHeadToken(text, tokens, variables);
      assert text == TokenText(tokens[0]) + Text(tokens[1..]);
      assert AfterFirst(text) == Text(tokens[1..]);
      SameMeaningSameTokens(AfterFirst(text), tokens[1..], variables);
      assert tokens == [tokens[0]] + tokens[1..];
    }
  }

  // ----- The selection -----

  lemma {:induction false} OwnTokensMean(parts: seq<Part>, n: nat, combined: map<string, Json>)
    requires n <= |parts| && Ascending(parts) && Scoped(parts, |parts|, combined)
    ensures |Fields(parts, n)| == n
    ensures InstantiateTokens(OwnTokens(Fields(parts, n), n), combined) == SideBySide(parts, n)
  {
    hide AliasedField;
    hide Scoped;
    hide Ascending;
    hide Labelled;
    hide Tokenise;
    if n > 0 {
      OwnTokensMean(parts, n - 1, combined);
      OwnTokensOfFront(Fields(parts, n - 1), AliasedField(parts[n - 1]), n - 1);
      AliasedFieldMeans(parts, n - 1, combined);
      InstantiateConcat(OwnTokens(Fields(parts, n - 1), n - 1), Tokenise(AliasedField(parts[n - 1])), combined);
    }
  }

  lemma {:induction false} OwnTokensOfFront(fields: seq<string>, field: string, n: nat)
    requires n <= |fields|
    ensures OwnTokens(fields + [field], n) == OwnTokens(fields, n)
  {
    if n > 0 {
      OwnTokensOfFront(fields, field, n - 1);
    }
  }

  /**
   The whole selection, with the combined variables in place, is what the slots asked for, one field after the other,
   each behind its alias and with the values of its own variables, if and only if no token at the end of one field
   grows into the next.
   */
  lemma SelectionMeans(parts: seq<Part>, combined: map<string, Json>)
    requires Ascending(parts) && Scoped(parts, |parts|, combined)
    ensures |Fields(parts, |parts|)| == |parts|
    ensures Instantiate(Concat(Fields(parts, |parts|)), combined) == SideBySide(parts, |parts|)
       <==> SeamsHold(Fields(parts, |parts|), |parts|)
  {
    var n := |parts|;
    OwnTokensMean(parts, n, combined);
    var fields := Fields(parts, n);
    var own := OwnTokens(fields, n);
    assert fields[..n] == fields;
    FieldsKeepTheirTokens(fields, n);
    OwnTokensAreProper(fields, n);
    TextOfOwnTokens(fields, n);
    hide *;
    SameTokensIffSameMeaning(Concat(fields), own, combined);
  }

  lemma SameTokensIffSameMeaning(text: string, own: seq<Token>, combined: map<string, Json>)
    requires AllProper(own) && Text(own) == text
    ensures Instantiate(text, combined) == InstantiateTokens(own, combined) <==> Tokenise(text) == own
  {
    if Instantiate(text, combined) == InstantiateTokens(own, combined) {
      SameMeaningSameTokens(text, own, combined);
    }
  }

  /** Fields that are not delimited merge: no separator is written between them. */
  lemma UndelimitedFieldsMerge(a: string, b: string)
    requires |Tokenise(a)| > 0 && LastToken(a).Word? && |b| > 0 && IsNameChar(b[0])
    ensures Tokenise(Concat([a, b])) != Tokenise(a) + Tokenise(b)
  {
    ConcatNext([a], b);
    ConcatNext([], a);
    assert [] + [a] == [a] && [a] + [b] == [a, b];
    assert "" + a == a;
    SeamIsExact(a, b);
  }

  lemma {:induction false} FieldsAreAsMany(parts: seq<Part>, n: nat)
    requires n <= |parts|
    ensures |Fields(parts, n)| == n
    ensures forall i :: 0 <= i < n ==> Fields(parts, n)[i] == AliasedField(parts[i])
  {
    hide AliasedField;
    if n > 0 {
      FieldsAreAsMany(parts, n - 1);
    }
  }

  lemma {:induction false} FieldsInFront(parts: seq<Part>, n: nat, m: nat)
    requires m <= n <= |parts|
    ensures |Fields(parts, n)| == n && Fields(parts, n)[..m] == Fields(parts, m)
  {
    hide AliasedField;
    FieldsAreAsMany(parts, n);
    FieldsAreAsMany(parts, m);
  }

  lemma ClosedSeam(text: string, field: string)
    requires AllClosed(Tokenise(text)) && Neutral(field)
    ensures Seam(text, field)
  {
    TokeniseConcat(text, field);
    SeamIsExact(text, field);
  }

  /** Between fields that are indented and close their literals, as cynic prints them, no token grows. */
  lemma {:induction false} DelimitedSeamsHold(parts: seq<Part>, n: nat, m: nat)
    requires m <= n <= |parts| && AllDelimited(parts)
    ensures |Fields(parts, n)| == n && SeamsHold(Fields(parts, n), m)
    decreases m
  {
    FieldsAreAsMany(parts, n);
    hide AliasedField;
    hide Delimited;
    hide Seam;
    hide AllClosed;
    hide Tokenise;
    hide Neutral;
    if m > 0 {
      DelimitedSeamsHold(parts, n, m - 1);
      FieldsInFront(parts, n, m - 1);
      FieldsAreClosed(parts, m - 1);
      AliasedFieldIsNeutral(parts[m - 1]);
      ClosedSeam(Concat(Fields(parts, m - 1)), AliasedField(parts[m - 1]));
    }
  }

  // ----- The definitions -----

  /** What the variable definitions of the first `n` parts say, with a comma and a space between them. */
  function DefinitionPieces(parts: seq<Part>, n: nat): seq<Piece>
    requires n <= |parts|
  {
    if n == 0 then []
    else
      var front, part := DefinitionPieces(parts, n - 1), parts[n - 1];
      var own := Instantiate(part.definitions, part.variables);
      if |part.definitions| == 0 then front
      else if |Definitions(parts, n - 1)| == 0 then own
      else front + ([Plain(Mark(',')), Plain(Mark(' '))] + own)
  }

  lemma JoinNext(definitions: seq<string>, definition: string)
    ensures Join(definitions + [definition])
         == (if |definitions| == 0 then definition else Join(definitions) + ([','] + ([' '] + definition)))
  {
    var all := definitions + [definition];
    assert all[..|all| - 1] == definitions;
  }

  lemma TokeniseJoined(a: string, b: string)
    requires AllClosed(Tokenise(a))
    ensures Tokenise(a + ([','] + ([' '] + b))) == Tokenise(a) + ([Mark(',')] + ([Mark(' ')] + Tokenise(b)))
  {
    TokeniseMark(' ', b);
    TokeniseMark(',', [' '] + b);
    TokeniseConcat(a, [','] + ([' '] + b));
  }

  lemma InstantiateJoined(a: string, b: string, variables: map<string, Json>)
    requires AllClosed(Tokenise(a))
    ensures Instantiate(a + ([','] + ([' '] + b)), variables)
         == Instantiate(a, variables) + ([Plain(Mark(',')), Plain(Mark(' '))] + Instantiate(b, variables))
  {
    TokeniseJoined(a, b);
    hide Tokenise;
    InstantiateConcat(Tokenise(a), [Mark(',')] + ([Mark(' ')] + Tokenise(b)), variables);
    InstantiateComma(Tokenise(b), variables);
  }

  lemma InstantiateComma(tokens: seq<Token>, variables: map<string, Json>)
    ensures InstantiateTokens([Mark(',')] + ([Mark(' ')] + tokens), variables)
         == [Plain(Mark(',')), Plain(Mark(' '))] + InstantiateTokens(tokens, variables)
  {}

  lemma JoinIsClosed(parts: seq<Part>, n: nat)
    requires n <= |parts| && AllSelfContained(parts)
    ensures AllClosed(Tokenise(Join(Definitions(parts, n))))
  {
    DefinitionsAreSelfContained(parts, n);
    JoinIsSelfContained(Definitions(parts, n));
    hide Tokenise;
  }

  /** One slot's definitions go behind those of the slots before it. */
  lemma DefinitionsMeanNext(parts: seq<Part>, n: nat, combined: map<string, Json>)
    requires n < |parts| && |parts[n].definitions| > 0
    requires AllClosed(Tokenise(Join(Definitions(parts, n))))
    ensures Instantiate(Join(Definitions(parts, n + 1)), combined)
         == var own := Instantiate(Rename(parts[n].definitions, Alias(parts[n].id)), combined);
            if |Definitions(parts, n)| == 0 then own
            else Instantiate(Join(Definitions(parts, n)), combined) + ([Plain(Mark(',')), Plain(Mark(' '))] + own)
  {
    hide Instantiate;
    hide Rename;
    hide Alias;
    hide Join;
    hide AllClosed;
    var own := Rename(parts[n].definitions, Alias(parts[n].id));
    assert Definitions(parts, n + 1) == Definitions(parts, n) + [own];
    hide Definitions;
    JoinNext(Definitions(parts, n), own);
    InstantiateJoined(Join(Definitions(parts, n)), own, combined);
  }

  lemma PiecesNext(parts: seq<Part>, n: nat)
    requires n < |parts| && |parts[n].definitions| > 0
    ensures DefinitionPieces(parts, n + 1)
         == var own := Instantiate(parts[n].definitions, parts[n].variables);
            if |Definitions(parts, n)| == 0 then own
            else DefinitionPieces(parts, n) + ([Plain(Mark(',')), Plain(Mark(' '))] + own)
  {
    hide Instantiate;
    hide Definitions;
  }

  lemma NothingNext(parts: seq<Part>, n: nat)
    requires n < |parts| && |parts[n].definitions| == 0
    ensures Definitions(parts, n + 1) == Definitions(parts, n)
    ensures DefinitionPieces(parts, n + 1) == DefinitionPieces(parts, n)
  {
    hide Instantiate;
  }

  lemma NoneAtFirst(parts: seq<Part>, combined: map<string, Json>)
    ensures Instantiate(Join(Definitions(parts, 0)), combined) == DefinitionPieces(parts, 0)
  {}

  /**
   The joined definitions of the combined document, with the combined variables in place, are what the definitions of
   the slots say, one slot after the other and each with the slot's own values.
   */
  lemma {:induction false} DefinitionsMean(parts: seq<Part>, n: nat, combined: map<string, Json>)
    requires n <= |parts| && AllSelfContained(parts) && Ascending(parts) && Scoped(parts, |parts|, combined)
    ensures Instantiate(Join(Definitions(parts, n)), combined) == DefinitionPieces(parts, n)
  {
    hide *;
    if n == 0 {
      NoneAtFirst(parts, combined);
    } else {
      DefinitionsMean(parts, n - 1, combined);
      if |parts[n - 1].definitions| == 0 {
        NothingNext(parts, n - 1);
      } else {
        MeaningPreserved(parts, n - 1, combined, parts[n - 1].definitions);
        JoinIsClosed(parts, n - 1);
        DefinitionsMeanNext(parts, n - 1, combined);
        PiecesNext(parts, n - 1);
      }
    }
  }

  // ----- From slots to meaning -----

  /**
   A connection that carries the parts of some slots means what they ask for. Its document splits into definitions and a
   selection; with its variables in place, the definitions are those of the slots, each with the slot's own values, and
   so is the selection, field after field, if and only if no token at the end of one field grows into the next.
   */
  lemma ConnectionMeans(slots: seq<Slot>, parts: seq<Part>, connection: Connection)
    requires ArePartsOf(parts, slots) && Ascending(parts) && Carries(connection, parts)
    ensures |Fields(parts, |parts|)| == |parts|
    ensures SplitDocument(connection.document).Some?
    ensures var (definitions, selection) := SplitDocument(connection.document).value;
            && Instantiate(definitions, connection.variables) == DefinitionPieces(parts, |parts|)
            && (Instantiate(selection, connection.variables) == SideBySide(parts, |parts|)
                <==> SeamsHold(Fields(parts, |parts|), |parts|))
  {
    CombineThenSplit(slots, parts);
    SelectionMeans(parts, connection.variables);
    PartsAreSelfContained(parts, slots);
    DefinitionsMean(parts, |parts|, connection.variables);
    hide SplitDocument;
    hide Instantiate;
    hide SeamsHold;
    hide ArePartsOf;
  }

  /** A slot whose document is a bare name between braces. */
  function BareSlot(id: SlotId, name: string): Slot {
    Slot(id, KEYWORD + ("{" + (name + "}")), map[], false)
  }

  function BarePart(id: SlotId, name: string): Part {
    Part(id, "", name, map[])
  }

  lemma BareSplits(name: string)
    requires |name| > 0
    ensures SplitDocument(KEYWORD + ("{" + (name + "}"))) == Some(("", name))
  {
    var selection := "{" + (name + "}");
    var document := KEYWORD + selection;
    assert document[|KEYWORD|..] == selection;
    assert selection[|selection| - 1] == '}' && selection[1..|selection| - 1] == name;
    assert Indent(document) == 0 && Indent(selection) == 0;
    assert TrimStart(document) == document && TrimStart(selection) == selection;
    assert FindFirst(selection, {'(', '{'}) == Some(0) && selection[0..] == selection;
    assert FindFirst(selection, {'{'}) == Some(0) && FindLast(selection, '}') == Some(|selection| - 1);
  }

  lemma BareNameIsWord(name: string)
    requires |name| > 0 && IsName(name)
    ensures Tokenise(name) == [Word(name)]
  {
    TokeniseStep(Word(name), "");
    assert name + "" == name;
  }

  lemma BareIsNotRenamed(name: string, alias: string)
    requires |name| > 0 && IsName(name)
    ensures Rename(name, alias) == name
  {
    BareNameIsWord(name);
    var renamed := RenameTokens(Tokenise(name), alias);
    assert renamed == [Word(name)];
    assert Text(renamed) == name + Text([]);
  }

  lemma BareRenders(id: SlotId, name: string)
    requires |name| > 0 && IsName(name)
    ensures IsPart(BareSlot(id, name), BarePart(id, name))
  {
    BareSplits(name);
    BareIsNotRenamed(name, Alias(id));
    hide SplitDocument;
    hide Rename;
    hide Alias;
    assert Indent(name) == 0 && name[0..] == name;
  }

  lemma BareFieldText(id: SlotId, name: string)
    requires |name| > 0 && IsName(name)
    ensures AliasedField(BarePart(id, name)) == Alias(id) + (": " + name)
  {
    BareIsNotRenamed(name, Alias(id));
    hide Rename;
    hide Alias;
    assert Indent(name) == 0 && name[0..] == name && name[..0] == "";
    assert "" + (Alias(id) + (": " + name)) == Alias(id) + (": " + name);
  }

  lemma BareFieldEnds(id: SlotId, name: string)
    requires |name| > 0 && IsName(name)
    ensures |Tokenise(AliasedField(BarePart(id, name)))| > 0
    ensures LastToken(AliasedField(BarePart(id, name))) == Word(name)
  {
    BareFieldText(id, name);
    BareNameIsWord(name);
    AliasIsName(id);
    TokeniseLabelled(Alias(id), name);
    hide Tokenise;
    hide AliasedField;
    hide Alias;
  }

  function BareSlots(id: SlotId, other: SlotId, name: string): seq<Slot> {
    [BareSlot(id, name), BareSlot(other, name)]
  }

  function BareParts(id: SlotId, other: SlotId, name: string): (parts: seq<Part>)
    ensures |parts| == 2
  {
    [BarePart(id, name), BarePart(other, name)]
  }

  /** The hub accepts two such slots. */
  lemma BareSlotsRender(id: SlotId, other: SlotId, name: string)
    requires id < other && |name| > 0 && IsName(name)
    ensures ArePartsOf(BareParts(id, other, name), BareSlots(id, other, name))
    ensures Ascending(BareParts(id, other, name))
  {
    BareRenders(id, name);
    BareRenders(other, name);
    BareAscend(id, other, name);
    hide *;
    TwoParts(BareSlot(id, name), BareSlot(other, name), BarePart(id, name), BarePart(other, name));
    BarePairs(id, other, name);
  }

  lemma BareAscend(id: SlotId, other: SlotId, name: string)
    requires id < other
    ensures Ascending(BareParts(id, other, name))
  {}

  lemma BarePairs(id: SlotId, other: SlotId, name: string)
    ensures BareParts(id, other, name) == [BarePart(id, name), BarePart(other, name)]
    ensures BareSlots(id, other, name) == [BareSlot(id, name), BareSlot(other, name)]
  {
    hide BarePart;
    hide BareSlot;
  }

  lemma TwoParts(a: Slot, b: Slot, x: Part, y: Part)
    requires IsPart(a, x) && IsPart(b, y)
    ensures ArePartsOf([x, y], [a, b])
  {
    hide IsPart;
  }

  /**
   Two slots whose fields merge: their documents are a bare name between braces. The alias of the second grows out of
   the name of the first, so the combined selection has not their tokens and does not mean what they ask for.
   */
  lemma BareFieldsMerge(id: SlotId, other: SlotId, name: string, combined: map<string, Json>)
    requires id < other && |name| > 0 && IsName(name) && Scoped(BareParts(id, other, name), 2, combined)
    ensures var fields := Fields(BareParts(id, other, name), 2);
            |fields| == 2 && Tokenise(Concat(fields)) != OwnTokens(fields, 2)
    ensures Instantiate(Concat(Fields(BareParts(id, other, name), 2)), combined)
         != SideBySide(BareParts(id, other, name), 2)
  {
    var parts := BareParts(id, other, name);
    BareFields(parts);
    BareFieldEnds(id, name);
    BareFieldStarts(other, name);
    BareSlotsRender(id, other, name);
    BarePairs(id, other, name);
    hide *;
    TwoFieldsMerge(Fields(parts, 2));
    SelectionMeans(parts, combined);
  }

  lemma BareFieldStarts(id: SlotId, name: string)
    requires |name| > 0 && IsName(name)
    ensures |AliasedField(BarePart(id, name))| > 0 && IsNameChar(AliasedField(BarePart(id, name))[0])
  {
    BareFieldText(id, name);
    AliasIsName(id);
    hide AliasedField;
    assert AliasedField(BarePart(id, name))[0] == Alias(id)[0];
  }

  lemma TwoFieldsMerge(fields: seq<string>)
    requires |fields| == 2 && |Tokenise(fields[0])| > 0 && LastToken(fields[0]).Word?
    requires |fields[1]| > 0 && IsNameChar(fields[1][0])
    ensures Tokenise(Concat(fields)) != OwnTokens(fields, 2) && !SeamsHold(fields, 2)
  {
    assert fields[..2] == fields == [fields[0], fields[1]];
    assert OwnTokens(fields, 1) == [] + Tokenise(fields[0]) == Tokenise(fields[0]);
    UndelimitedFieldsMerge(fields[0], fields[1]);
    FieldsKeepTheirTokens(fields, 2);
    hide Tokenise;
    hide Concat;
    hide LastToken;
    hide SeamsHold;
  }

  lemma BareFields(parts: seq<Part>)
    requires |parts| == 2
    ensures Fields(parts, 2) == [AliasedField(parts[0]), AliasedField(parts[1])]
  {
    assert Fields(parts, 1) == [] + [AliasedField(parts[0])];
  }
}
