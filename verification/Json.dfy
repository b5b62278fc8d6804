/** JSON values, their text, and reading the text back. */
module Json {
  import opened Types

  /** `Atom` is a number, `true`, `false` or `null`; `Str` holds the characters between the quotes, escapes included. */
  datatype Json = Atom(text: string) | Str(text: string) | Arr(items: Items) | Obj(members: Members)

  datatype Items = NoItems | Item(head: Json, tail: Items)

  datatype Members = NoMembers | Member(name: string, value: Json, tail: Members)

  const DELIMITERS := {'{', '}', '[', ']', ',', ':', '"'}

  // ----- printing -----

  function Print(j: Json): (text: string)
    decreases j
  {
    match j
    case Atom(text) => text
    case Str(text) => "\"" + text + "\""
    case Arr(items) => "[" + PrintItems(items) + "]"
    case Obj(members) => "{" + PrintMembers(members) + "}"
  }

  function PrintItems(items: Items): string
    decreases items
  {
    match items
    case NoItems => ""
    case Item(head, tail) => Print(head) + if tail.NoItems? then "" else "," + PrintItems(tail)
  }

  function PrintMembers(members: Members): string
    decreases members
  {
    match members
    case NoMembers => ""
    case Member(name, value, tail) =>
      "\"" + name + "\":" + Print(value) + if tail.NoMembers? then "" else "," + PrintMembers(tail)
  }

  // ----- values whose text can be read back -----

  /** Between quotes, a quote and a backslash occur only behind a backslash. */
  predicate IsEscaped(text: string) {
    if text == "" then true
    else if text[0] == '\\' then |text| > 1 && IsEscaped(text[2..])
    else text[0] != '"' && IsEscaped(text[1..])
  }

  predicate IsAtom(text: string) {
    text != "" && forall c <- text :: c !in DELIMITERS
  }

  predicate Readable(j: Json)
    decreases j
  {
    match j
    case Atom(text) => IsAtom(text)
    case Str(text) => IsEscaped(text)
    case Arr(items) => ReadableItems(items)
    case Obj(members) => ReadableMembers(members)
  }

  predicate ReadableItems(items: Items)
    decreases items
  {
    items.Item? ==> Readable(items.head) && ReadableItems(items.tail)
  }

  predicate ReadableMembers(members: Members)
    decreases members
  {
    members.Member? ==> IsEscaped(members.name) && Readable(members.value) && ReadableMembers(members.tail)
  }

  // ----- reading -----

  datatype Parsed<T> = Fail | Done(value: T, rest: string)

  /** How many characters there are before the closing quote, or before the end of the text. */
  function ToQuote(s: string): (n: nat)
    ensures n <= |s| && (n < |s| ==> s[n] == '"')
  {
    if s == "" || s[0] == '"' then 0
    else if s[0] == '\\' && |s| > 1 then ToQuote(s[2..]) + 2
    else ToQuote(s[1..]) + 1
  }

  function ToDelimiter(s: string): (n: nat)
    ensures n <= |s|
  {
    if s == "" || s[0] in DELIMITERS then 0 else ToDelimiter(s[1..]) + 1
  }

  function ParseValue(s: string): (p: Parsed<Json>)
    ensures p.Done? ==> |p.rest| < |s|
    decreases |s|, 0
  {
    if s == "" then Fail
    else if s[0] == '"' then
      var n := ToQuote(s[1..]);
      if n + 1 == |s| then Fail else Done(Str(s[1..n + 1]), s[n + 2..])
    else if s[0] == '[' then
      if |s| > 1 && s[1] == ']' then Done(Arr(NoItems), s[2..])
      else
        var p := ParseItems(s[1..]);
        if p.Done? && p.rest != "" && p.rest[0] == ']' then Done(Arr(p.value), p.rest[1..]) else Fail
    else if s[0] == '{' then
      if |s| > 1 && s[1] == '}' then Done(Obj(NoMembers), s[2..])
      else
        var p := ParseMembers(s[1..]);
        if p.Done? && p.rest != "" && p.rest[0] == '}' then Done(Obj(p.value), p.rest[1..]) else Fail
    else
      var n := ToDelimiter(s);
      if n == 0 then Fail else Done(Atom(s[..n]), s[n..])
  }

  function ParseItems(s: string): (p: Parsed<Items>)
    ensures p.Done? ==> |p.rest| < |s|
    decreases |s|, 1
  {
    var head := ParseValue(s);
    if head.Fail? then Fail
    else if head.rest != "" && head.rest[0] == ',' then
      var tail := ParseItems(head.rest[1..]);
      if tail.Fail? then Fail else Done(Item(head.value, tail.value), tail.rest)
    else Done(Item(head.value, NoItems), head.rest)
  }

  /** A member's name, with the text behind the colon. */
  function ParseName(s: string): (p: Parsed<string>)
    ensures p.Done? ==> |p.rest| < |s|
  {
    if s == "" || s[0] != '"' then Fail
    else
      var n := ToQuote(s[1..]);
      if n + 3 > |s| || s[n + 2] != ':' then Fail else Done(s[1..n + 1], s[n + 3..])
  }

  function ParseMembers(s: string): (p: Parsed<Members>)
    ensures p.Done? ==> |p.rest| < |s|
    decreases |s|, 1
  {
    var name := ParseName(s);
    if name.Fail? then Fail
    else
      var value := ParseValue(name.rest);
      if value.Fail? then Fail
      else if value.rest != "" && value.rest[0] == ',' then
        var tail := ParseMembers(value.rest[1..]);
        if tail.Fail? then Fail else Done(Member(name.value, value.value, tail.value), tail.rest)
      else Done(Member(name.value, value.value, NoMembers), value.rest)
  }

  // ----- the text of a value is read back as that value -----

  /** What can follow a value. */
  predicate Ends(rest: string) {
    rest == "" || rest[0] == ',' || rest[0] == ']' || rest[0] == '}'
  }

  lemma {:induction false} ToQuoteIs(text: string, rest: string)
    requires IsEscaped(text) && rest != "" && rest[0] == '"'
    ensures ToQuote(text + rest) == |text|
  {
    if text == "" {
      assert text + rest == rest;
    } else if text[0] == '\\' {
      assert (text + rest)[2..] == text[2..] + rest;
      ToQuoteIs(text[2..], rest);
    } else {
      assert (text + rest)[1..] == text[1..] + rest;
      ToQuoteIs(text[1..], rest);
    }
  }

  lemma {:induction false} ToDelimiterIs(text: string, rest: string)
    requires (forall c <- text :: c !in DELIMITERS) && Ends(rest)
    ensures ToDelimiter(text + rest) == |text|
  {
    if text == "" {
      assert text + rest == rest;
    } else {
      assert (text + rest)[1..] == text[1..] + rest;
      assert forall c <- text[1..] :: c in text;
      ToDelimiterIs(text[1..], rest);
    }
  }

  lemma ReadStr(text: string, rest: string)
    requires IsEscaped(text)
    ensures ParseValue("\"" + text + "\"" + rest) == Done(Str(text), rest)
  {
    var s := "\"" + text + "\"" + rest;
    assert s[1..] == text + ("\"" + rest);
    ToQuoteIs(text, "\"" + rest);
    assert s[1..|text| + 1] == text && s[|text| + 2..] == rest;
  }

  lemma ReadAtom(text: string, rest: string)
    requires IsAtom(text) && Ends(rest)
    ensures ParseValue(text + rest) == Done(Atom(text), rest)
  {
    var s := text + rest;
    assert text[0] in text && s[0] == text[0];
    ToDelimiterIs(text, rest);
    assert s[..|text|] == text && s[|text|..] == rest;
  }

  lemma ReadName(name: string, after: string)
    requires IsEscaped(name)
    ensures ParseName("\"" + name + "\":" + after) == Done(name, after)
  {
    var s := "\"" + name + "\":" + after;
    assert s[1..] == name + ("\":" + after);
    ToQuoteIs(name, "\":" + after);
    assert s[1..|name| + 1] == name && s[|name| + 3..] == after;
  }

  lemma ReadArr(s: string, body: string, items: Items, more: string)
    requires s != "" && s[0] == '[' && s[1..] == body + more && more != "" && more[0] == ']'
    requires if items.NoItems? then body == "" else body != "" && body[0] != ']'
    requires items.Item? ==> ParseItems(body + more) == Done(items, more)
    ensures ParseValue(s) == Done(Arr(items), more[1..])
  {
    assert forall i :: 0 <= i < |body + more| ==> s[i + 1] == (body + more)[i];
    assert body == "" ==> body + more == more && s[2..] == more[1..];
  }

  lemma ReadObj(s: string, body: string, members: Members, more: string)
    requires s != "" && s[0] == '{' && s[1..] == body + more && more != "" && more[0] == '}'
    requires if members.NoMembers? then body == "" else body != "" && body[0] != '}'
    requires members.Member? ==> ParseMembers(body + more) == Done(members, more)
    ensures ParseValue(s) == Done(Obj(members), more[1..])
  {
    assert forall i :: 0 <= i < |body + more| ==> s[i + 1] == (body + more)[i];
    assert body == "" ==> body + more == more && s[2..] == more[1..];
  }

  lemma Regroup(a: string, b: string, c: string, d: string)
    ensures (a + b + c) + d == a + (b + (c + d))
  {
  }

  lemma BehindComma(body: string, rest: string)
    ensures var more := ("," + body) + rest; more != "" && more[0] == ',' && more[1..] == body + rest
  {
  }

  lemma PrintStarts(j: Json)
    requires Readable(j)
    ensures Print(j) != "" && Print(j)[0] != ']'
  {
    if j.Atom? {
      assert j.text[0] in j.text;
    }
  }

  lemma Behind(c: char, text: string)
    ensures ([c] + text)[0] == c && ([c] + text)[1..] == text
  {
  }

  lemma FirstOfItems(items: Items)
    requires ReadableItems(items)
    ensures if items.NoItems? then PrintItems(items) == "" else PrintItems(items) != "" && PrintItems(items)[0] != ']'
  {
    if items.Item? {
      PrintStarts(items.head);
      assert PrintItems(items)[0] == Print(items.head)[0];
    }
  }

  lemma ArrText(items: Items, rest: string)
    ensures var s := Print(Arr(items)) + rest;
      s != "" && s[0] == '[' && s[1..] == PrintItems(items) + ("]" + rest)
  {
    Regroup("[", PrintItems(items), "]", rest);
    Behind('[', PrintItems(items) + ("]" + rest));
  }

  lemma FirstOfMembers(members: Members)
    ensures if members.NoMembers? then PrintMembers(members) == ""
            else PrintMembers(members) != "" && PrintMembers(members)[0] != '}'
  {
    if members.Member? {
      assert PrintMembers(members)[0] == '"';
    }
  }

  lemma ObjText(members: Members, rest: string)
    ensures var s := Print(Obj(members)) + rest;
      s != "" && s[0] == '{' && s[1..] == PrintMembers(members) + ("}" + rest)
  {
    Regroup("{", PrintMembers(members), "}", rest);
    Behind('{', PrintMembers(members) + ("}" + rest));
  }

  /** The text of a value, followed by anything that can follow a value, is read as that value. */
  lemma {:induction false} ReadPrinted(j: Json, rest: string)
    requires Readable(j) && Ends(rest)
    ensures ParseValue(Print(j) + rest) == Done(j, rest)
    decreases j
  {
    match j
    case Atom(text) => ReadAtom(text, rest);
    case Str(text) => ReadStr(text, rest);
    case Arr(items) =>
      if items.Item? {
        ReadPrintedItems(items, "]" + rest);
      }
      FirstOfItems(items);
      ArrText(items, rest);
      ReadArr(Print(j) + rest, PrintItems(items), items, "]" + rest);
    case Obj(members) =>
      if members.Member? {
        ReadPrintedMembers(members, "}" + rest);
      }
      FirstOfMembers(members);
      ObjText(members, rest);
      ReadObj(Print(j) + rest, PrintMembers(members), members, "}" + rest);
  }

  lemma {:induction false} ReadPrintedItems(items: Items, rest: string)
    requires items.Item? && ReadableItems(items) && rest != "" && rest[0] == ']'
    ensures ParseItems(PrintItems(items) + rest) == Done(items, rest)
    decreases items
  {
    var head, tail := items.head, items.tail;
    var text := if tail.NoItems? then "" else "," + PrintItems(tail);
    var more := text + rest;
    Regroup("", Print(head), text, rest);
    assert "" + Print(head) + text == PrintItems(items) && "" + (Print(head) + more) == Print(head) + more;
    if tail.NoItems? {
      assert more == rest;
      ReadPrinted(head, rest);
    } else {
      BehindComma(PrintItems(tail), rest);
      ReadPrinted(head, more);
      ReadPrintedItems(tail, rest);
    }
  }

  lemma {:induction false} ReadPrintedMembers(members: Members, rest: string)
    requires members.Member? && ReadableMembers(members) && rest != "" && rest[0] == '}'
    ensures ParseMembers(PrintMembers(members) + rest) == Done(members, rest)
    decreases members
  {
    var name, value, tail := members.name, members.value, members.tail;
    var text := if tail.NoMembers? then "" else "," + PrintMembers(tail);
    var s, more := PrintMembers(members) + rest, text + rest;
    Regroup("\"" + name + "\":", Print(value), text, rest);
    ReadName(name, Print(value) + more);
    if tail.NoMembers? {
      assert more == rest;
      ReadPrinted(value, rest);
      ReadLastMember(s, name, Print(value) + rest, value, rest);
    } else {
      BehindComma(PrintMembers(tail), rest);
      ReadPrinted(value, more);
      ReadPrintedMembers(tail, rest);
      ReadOneMoreMember(s, name, Print(value) + more, value, more, tail, rest);
    }
  }

  lemma ReadLastMember(s: string, name: string, after: string, value: Json, rest: string)
    requires ParseName(s) == Done(name, after) && ParseValue(after) == Done(value, rest)
    requires rest != "" && rest[0] == '}'
    ensures ParseMembers(s) == Done(Member(name, value, NoMembers), rest)
  {
  }

  lemma ReadOneMoreMember(
    s: string, name: string, after: string, value: Json, more: string, tail: Members, rest: string)
    requires ParseName(s) == Done(name, after) && ParseValue(after) == Done(value, more)
    requires more != "" && more[0] == ',' && ParseMembers(more[1..]) == Done(tail, rest)
    ensures ParseMembers(s) == Done(Member(name, value, tail), rest)
  {
  }

  /** The text of a readable value, on its own, is read back as that value. */
  lemma TextIsReadBack(j: Json)
    requires Readable(j)
    ensures ParseValue(Print(j)) == Done(j, "")
  {
    ReadPrinted(j, "");
    assert Print(j) + "" == Print(j);
  }

  // ----- looking into a value -----

  /** The value of the first member of this name. */
  function Lookup(members: Members, name: string): Option<Json>
    decreases members
  {
    if members.NoMembers? then None
    else if members.name == name then Some(members.value)
    else Lookup(members.tail, name)
  }
}
