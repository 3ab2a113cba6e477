// Attribute lists of playlist tags, section 4.2 of RFC 8216: how they are
// printed and how a player reads them.
module AttributeLists {
  import opened Strings

  datatype Field = Field(key: string, value: string)

  function Quoted(s: string): string { "\"" + s + "\"" }

  function FieldText(f: Field): string { f.key + "=" + f.value }

  function FieldTexts(fields: seq<Field>): seq<string> {
    seq(|fields|, i requires 0 <= i < |fields| => FieldText(fields[i]))
  }

  function ListText(fields: seq<Field>): string { Join(FieldTexts(fields), ',') }

  // ---- Reading ----------------------------------------------------------------------------

  // The list cut at the commas outside of quotes.
  function Listed(s: string, quoted: bool): (parts: seq<string>)
    ensures |parts| >= 1
  {
    if s == "" then [""]
    else
      var rest := Listed(s[1..], if s[0] == '"' then !quoted else quoted);
      if s[0] == ',' && !quoted then [""] + rest else Glued([s[0]], rest)
  }

  function Glued(front: string, parts: seq<string>): seq<string>
    requires parts != []
  {
    [front + parts[0]] + parts[1..]
  }

  // The list gives the attribute this value.
  ghost predicate Gives(list: string, key: string, value: string) { key + "=" + value in Listed(list, false) }

  // A line that is a tag gives the attribute this value.
  ghost predicate TagGives(line: string, tag: string, key: string, value: string) {
    HasPrefix(line, tag) && Gives(line[|tag|..], key, value)
  }

  // ---- Reading undoes printing ----------------------------------------------------------------

  lemma {:induction false} ListedBehind(front: string, s: string, quoted: bool)
    requires Lacks(front, '"') && (quoted || Lacks(front, ','))
    ensures Listed(front + s, quoted) == Glued(front, Listed(s, quoted))
  {
    var parts := Listed(s, quoted);
    if front == "" {
      assert front + s == s && front + parts[0] == parts[0] && [parts[0]] + parts[1..] == parts;
    } else {
      assert (front + s)[1..] == front[1..] + s;
      ListedBehind(front[1..], s, quoted);
      assert [front[0]] + (front[1..] + parts[0]) == front + parts[0];
    }
  }

  lemma ListedQuote(s: string, quoted: bool)
    ensures Listed("\"" + s, quoted) == Glued("\"", Listed(s, !quoted))
  {
    assert ("\"" + s)[1..] == s;
  }

  lemma ListedComma(s: string)
    ensures Listed("," + s, false) == [""] + Listed(s, false)
  {
    assert ("," + s)[1..] == s;
  }

  lemma GluedTwice(a: string, b: string, parts: seq<string>)
    requires parts != []
    ensures Glued(a, Glued(b, parts)) == Glued(a + b, parts)
  {
    assert a + (b + parts[0]) == a + b + parts[0];
    assert Glued(b, parts)[1..] == parts[1..];
  }

  // Text without commas outside of quotes, and with its quotes closed.
  ghost predicate Whole(s: string) {
    (Lacks(s, '"') && Lacks(s, ','))
    || exists front, inside :: QuotedAt(s, front, inside)
  }

  ghost predicate QuotedAt(s: string, front: string, inside: string) {
    s == front + ("\"" + (inside + "\"")) && Lacks(front, '"') && Lacks(front, ',') && Lacks(inside, '"')
  }

  lemma ListedWhole(s: string, tail: string)
    requires Whole(s)
    ensures Listed(s + tail, false) == Glued(s, Listed(tail, false))
  {
    if Lacks(s, '"') && Lacks(s, ',') {
      ListedBehind(s, tail, false);
    } else {
      var front, inside :| QuotedAt(s, front, inside);
      ListedQuoted(front, inside, tail);
      Nested(front, inside, tail);
    }
  }

  lemma Nested(front: string, inside: string, tail: string)
    ensures front + ("\"" + (inside + "\"")) + tail == front + ("\"" + (inside + ("\"" + tail)))
  {
  }

  lemma ListedQuoted(front: string, inside: string, tail: string)
    requires Lacks(front, '"') && Lacks(front, ',') && Lacks(inside, '"')
    ensures Listed(front + ("\"" + (inside + ("\"" + tail))), false)
            == Glued(front + ("\"" + (inside + "\"")), Listed(tail, false))
  {
    var parts := Listed(tail, false);
    ListedQuote(tail, true);
    ListedBehind(inside, "\"" + tail, true);
    GluedTwice(inside, "\"", parts);
    ListedQuote(inside + ("\"" + tail), false);
    GluedTwice("\"", inside + "\"", parts);
    ListedBehind(front, "\"" + (inside + ("\"" + tail)), false);
    GluedTwice(front, "\"" + (inside + "\""), parts);
  }

  lemma {:induction false} ListedJoin(parts: seq<string>)
    requires parts != [] && forall i | 0 <= i < |parts| :: Whole(parts[i])
    ensures Listed(Join(parts, ','), false) == parts
  {
    if |parts| == 1 {
      ListedWhole(parts[0], "");
      assert parts[0] + "" == parts[0] && Listed("", false) == [""];
    } else {
      var rest := Join(parts[1..], ',');
      ListedJoin(parts[1..]);
      ListedWhole(parts[0], "," + rest);
      ListedComma(rest);
      assert parts[0] + ("," + rest) == Join(parts, ',');
      assert parts[0] + "" == parts[0] && [parts[0]] + parts[1..] == parts;
    }
  }

  // Keys without separators; values plain or in quotes.
  ghost predicate CleanField(f: Field) {
    Lacks(f.key, '=') && Lacks(f.key, '"') && Lacks(f.key, ',')
    && ((Lacks(f.value, '"') && Lacks(f.value, ',')) || exists inside :: f.value == Quoted(inside) && Lacks(inside, '"'))
  }

  ghost predicate CleanFields(fields: seq<Field>) { forall i | 0 <= i < |fields| :: CleanField(fields[i]) }

  lemma CleanIsWhole(f: Field)
    requires CleanField(f)
    ensures Whole(FieldText(f))
  {
    if inside :| f.value == Quoted(inside) && Lacks(inside, '"') {
      assert FieldText(f) == (f.key + "=") + ("\"" + (inside + "\""));
      assert QuotedAt(FieldText(f), f.key + "=", inside);
    }
  }

  lemma SameField(f: Field, key: string, value: string)
    requires Lacks(f.key, '=') && Lacks(key, '=')
    ensures FieldText(f) == key + "=" + value <==> f == Field(key, value)
  {
    if FieldText(f) == key + "=" + value {
      CharIndex(f.key, '=', f.value);
      CharIndex(key, '=', value);
      assert f.key + ['='] + f.value == FieldText(f) && key + ['='] + value == FieldText(f);
      assert FieldText(f)[..|key|] == key && FieldText(f)[..|f.key|] == f.key;
      assert FieldText(f)[|key| + 1..] == value && FieldText(f)[|f.key| + 1..] == f.value;
    }
  }

  // A player reads exactly the attributes that were printed.
  lemma ListGives(fields: seq<Field>, key: string, value: string)
    requires fields != [] && CleanFields(fields) && Lacks(key, '=')
    ensures Gives(ListText(fields), key, value) <==> Field(key, value) in fields
  {
    var texts := FieldTexts(fields);
    forall i | 0 <= i < |texts| ensures Whole(texts[i]) {
      CleanIsWhole(fields[i]);
    }
    ListedJoin(texts);
    forall i | 0 <= i < |fields| ensures texts[i] == key + "=" + value <==> fields[i] == Field(key, value) {
      SameField(fields[i], key, value);
    }
  }

  lemma TagGivesList(tag: string, fields: seq<Field>, key: string, value: string)
    requires fields != [] && CleanFields(fields) && Lacks(key, '=')
    ensures TagGives(tag + ListText(fields), tag, key, value) <==> Field(key, value) in fields
  {
    assert (tag + ListText(fields))[|tag|..] == ListText(fields);
    ListGives(fields, key, value);
  }
}
