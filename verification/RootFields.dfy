/** The name of a slot's root field, under which its payloads reach its decoder. */
module RootFields {
  import opened Options
  import opened Tokens
  import opened Renaming
  import opened Documents
  import opened Splitting
  import opened Combiner
  import opened SelectionMeaning

  /** White space, the name, and nothing that could belong to the name. */
  predicate StartsWith(field: string, blank: string, name: string, rest: string) {
    && field == blank + (name + rest) && IsBlank(blank) && IsName(name)
    && (|rest| > 0 ==> !IsNameChar(rest[0]) && (|name| == 0 ==> !IsWhitespace(rest[0])))
  }

  ghost predicate HasName(field: string, name: string) {
    exists blank, rest :: StartsWith(field, blank, name, rest)
  }

  lemma StartIsNotBlank(name: string, rest: string)
    requires IsName(name) && (|name| == 0 && |rest| > 0 ==> !IsWhitespace(rest[0]))
    ensures |name + rest| > 0 ==> !IsWhitespace((name + rest)[0])
  {}

  lemma NameOfStart(field: string, blank: string, name: string, rest: string)
    requires StartsWith(field, blank, name, rest)
    ensures RootFieldName(field) == name
  {
    StartIsNotBlank(name, rest);
    IndentOf(blank, name + rest);
    NameLenOfName(name, rest);
    hide TrimStart;
    hide NameLen;
    assert (name + rest)[..|name|] == name;
  }

  lemma StartOfName(field: string) returns (blank: string, rest: string)
    ensures StartsWith(field, blank, RootFieldName(field), rest)
  {
    IndentMeans(field);
    var trimmed := TrimStart(field);
    blank := field[..Indent(field)];
    assert field == blank + trimmed;
    NameLenIsLongest(trimmed);
    rest := trimmed[NameLen(trimmed)..];
    assert trimmed == RootFieldName(field) + rest;
    hide Indent;
    hide NameLen;
  }

  /** The root field's name is the run of name characters a field starts with once its indentation is dropped. */
  lemma RootFieldNameMeans(field: string, name: string)
    ensures RootFieldName(field) == name <==> HasName(field, name)
  {
    hide RootFieldName;
    hide StartsWith;
    var blank, rest := StartOfName(field);
    if HasName(field, name) {
      var blank', rest' :| StartsWith(field, blank', name, rest');
      NameOfStart(field, blank', name, rest');
    }
  }

  lemma NameLenOfWord(name: string, rest: string)
    requires IsName(name) && |name| > 0 && (|rest| > 0 ==> !IsNameChar(rest[0]))
    ensures Tokenise(name + rest) == [Word(name)] + Tokenise(rest)
  {
    TokeniseStep(Word(name), rest);
  }

  lemma RenameWord(name: string, rest: string, alias: string)
    requires IsName(name) && |name| > 0 && (|rest| > 0 ==> !IsNameChar(rest[0]))
    ensures Rename(name + rest, alias) == name + Rename(rest, alias)
  {
    ReadBack(Word(name), rest);
    RenameFirst(name + rest, alias);
    assert (name + rest)[|name|..] == rest;
  }

  /** Renaming variables leaves the name of the root field alone. */
  lemma RenamedHasName(field: string, alias: string)
    ensures RootFieldName(Rename(field, alias)) == RootFieldName(field)
  {
    var name := RootFieldName(field);
    var blank, rest := StartOfName(field);
    RenameBlank(blank, name + rest, alias);
    if |name| > 0 {
      RenameWord(name, rest, alias);
    } else {
      assert name + rest == rest && name + Rename(rest, alias) == Rename(rest, alias);
    }
    RenameSameHead(rest, alias);
    hide Rename;
    hide RootFieldName;
    NameOfStart(Rename(field, alias), blank, name, Rename(rest, alias));
  }

  /** Somewhere behind blanks, the alias, a colon, a space and the name. */
  predicate LabelsName(tokens: seq<Token>, blank: string, alias: string, name: string, rest: seq<Token>) {
    tokens == Marks(blank) + ([Word(alias)] + ([Mark(':')] + ([Mark(' ')] + ([Word(name)] + rest)))) && IsBlank(blank)
  }

  lemma AliasedFieldHasName(part: Part) returns (blank: string, rest: seq<Token>)
    requires |RootFieldName(part.field)| > 0
    ensures LabelsName(Tokenise(AliasedField(part)), blank, Alias(part.id), RootFieldName(part.field), rest)
  {
    var alias, name := Alias(part.id), RootFieldName(part.field);
    var tail;
    blank, tail := StartOfName(part.field);
    StartIsNotBlank(name, tail);
    IndentOf(blank, name + tail);
    assert part.field[..Indent(part.field)] == blank && part.field[Indent(part.field)..] == name + tail;
    hide RootFieldName;
    hide Indent;
    AliasedFieldText(part);
    hide AliasedField;
    RenameWord(name, tail, alias);
    RenameSameHead(tail, alias);
    AliasIsName(part.id);
    assert |alias| > 0;
    hide Alias;
    hide Rename;
    rest := Tokenise(Rename(tail, alias));
    TokeniseBlank(blank, alias + (": " + (name + Rename(tail, alias))));
    TokeniseLabelled(alias, name + Rename(tail, alias));
    NameLenOfWord(name, Rename(tail, alias));
    hide Tokenise;
  }

  /**
   The target of every part of a connection says the part's own slot, and the field name that stands behind the slot's
   alias in the combined document, which is the name the field starts with in the slot's own document.
   */
  lemma TargetsNameTheirFields(slots: seq<Slot>, parts: seq<Part>, connection: Connection, i: nat)
    requires ArePartsOf(parts, slots) && Carries(connection, parts) && i < |parts|
    ensures var alias := Alias(parts[i].id);
            && alias in connection.targets && connection.targets[alias].id == slots[i].id
            && |connection.targets[alias].field| > 0 && HasName(parts[i].field, connection.targets[alias].field)
            && exists blank, rest ::
                 LabelsName(Tokenise(AliasedField(parts[i])), blank, alias, connection.targets[alias].field, rest)
  {
    var part := parts[i];
    assert HasTarget(part, connection.targets) && IsPart(slots[i], part);
    RenamedHasName(part.field, Alias(part.id));
    hide Alias;
    hide RootFieldName;
    hide SplitDocument;
    RootFieldNameMeans(part.field, RootFieldName(part.field));
    var blank, rest := AliasedFieldHasName(part);
  }

  /** A document with a selection whose field has a name. */
  ghost predicate NamesField(document: string, definitions: string, field: string) {
    ConsistsOf(document, definitions, field) && exists name :: |name| > 0 && HasName(field, name)
  }

  /** A slot renders if and only if its document has a selection, and the field in it a name. */
  lemma RendersMeans(slot: Slot)
    ensures Renders(slot) <==> exists definitions, field :: NamesField(slot.document, definitions, field)
  {
    hide SplitDocument;
    hide ConsistsOf;
    hide RootFieldName;
    hide HasName;
    hide Alias;
    if Renders(slot) {
      var part :| IsPart(slot, part);
      SplitMeans(slot.document, part.definitions, part.field);
      RenamedHasName(part.field, Alias(part.id));
      RootFieldNameMeans(part.field, RootFieldName(part.field));
      assert NamesField(slot.document, part.definitions, part.field);
    }
    if definitions, field :| NamesField(slot.document, definitions, field) {
      var name :| |name| > 0 && HasName(field, name);
      SplitMeans(slot.document, definitions, field);
      RootFieldNameMeans(field, name);
      RenamedHasName(field, Alias(slot.id));
      assert IsPart(slot, Part(slot.id, definitions, field, slot.variables));
    }
  }
}
