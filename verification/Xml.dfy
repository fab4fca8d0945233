/** The part of XML 1.0 that printed stanzas use, as a tokenizer: start and end tags with
    attributes (section 3.1), character data (section 2.4), the predefined entities
    (section 4.6), line ends (section 2.11) and attribute values (section 3.3.3). */
module Xml {
  import opened Common

  type Attrs = seq<(string, string)>

  datatype Event = StartTag(name: string, attrs: Attrs) | EndTag(name: string) | Chars(text: string)

  predicate NameStart(c: char) {
    'a' <= c <= 'z' || 'A' <= c <= 'Z' || c == '_' || c == ':' || c as int >= 0x80
  }

  predicate NameChar(c: char) {
    NameStart(c) || '0' <= c <= '9' || c == '-' || c == '.'
  }

  predicate IsName(s: string) {
    s != "" && NameStart(s[0]) && forall i :: 0 <= i < |s| ==> NameChar(s[i])
  }

  predicate IsSpace(c: char) {
    c == ' ' || c == '\t' || c == '\r' || c == '\n'
  }

  /** A legal character of a document (section 2.2). */
  predicate IsChar(c: char) {
    c >= ' ' || c == '\t' || c == '\r' || c == '\n'
  }

  /** Length of the longest run of name characters at the start. */
  function NameLength(s: string): (n: nat)
    ensures n <= |s|
  {
    if s == "" || !NameChar(s[0]) then 0 else 1 + NameLength(s[1..])
  }

  function SkipSpace(s: string): (r: string)
    ensures |r| <= |s| && (r != "" ==> !IsSpace(r[0]))
    ensures s != "" && IsSpace(s[0]) ==> |r| < |s|
  {
    if s != "" && IsSpace(s[0]) then SkipSpace(s[1..]) else s
  }

  predicate StartsWith(s: string, t: string) {
    |t| <= |s| && s[..|t|] == t
  }

  /** The character an entity reference at the start of s stands for, and what follows it. */
  function Entity(s: string): (r: Option<(char, string)>)
    ensures r.Some? ==> |r.value.1| < |s| && r.value.0 in "<>&\"'"
  {
    if StartsWith(s, "&lt;") then Some(('<', s[4..]))
    else if StartsWith(s, "&gt;") then Some(('>', s[4..]))
    else if StartsWith(s, "&amp;") then Some(('&', s[5..]))
    else if StartsWith(s, "&quot;") then Some(('"', s[6..]))
    else if StartsWith(s, "&apos;") then Some(('\'', s[6..]))
    else None
  }

  /** An attribute value up to its closing quote: tabs and line ends read as spaces. */
  function AttValue(s: string, quote: char): (r: Option<(string, string)>)
    ensures r.Some? ==> |r.value.1| < |s|
    ensures r.Some? ==> forall c :: c in r.value.0 ==> c !in "\t\r\n"
  {
    if s == "" || s[0] == '<' || !IsChar(s[0]) then None
    else if s[0] == quote then Some(("", s[1..]))
    else if s[0] == '&' then
      var e := Entity(s);
      if e.None? then None else WithFirst(e.value.0, AttValue(e.value.1, quote))
    else if StartsWith(s, "\r\n") then AttValue(s[1..], quote)
    else WithFirst(if IsSpace(s[0]) then ' ' else s[0], AttValue(s[1..], quote))
  }

  function WithFirst(c: char, r: Option<(string, string)>): Option<(string, string)> {
    if r.None? then None else Some(([c] + r.value.0, r.value.1))
  }

  /** How a start tag goes on after its name: its attributes, whether it is an empty
      element, and what follows it. Attribute names may not repeat. */
  datatype TagEnd = TagEnd(attrs: Attrs, empty: bool, rest: string)

  function Attributes(s: string, seen: Attrs): (r: Option<TagEnd>)
    ensures r.Some? ==> |r.value.rest| < |s|
    decreases |s|
  {
    if StartsWith(s, ">") then Some(TagEnd(seen, false, s[1..]))
    else if StartsWith(s, "/>") then Some(TagEnd(seen, true, s[2..]))
    else if s == "" || !IsSpace(s[0]) then None
    else
      var t := SkipSpace(s);
      if t != "" && (t[0] == '>' || t[0] == '/') then Attributes(t, seen)
      else
        var n := NameLength(t);
        var name, u := t[..n], SkipSpace(t[n..]);
        if !IsName(name) || !StartsWith(u, "=") || (exists i :: 0 <= i < |seen| && seen[i].0 == name) then None
        else
          var v := SkipSpace(u[1..]);
          if v == "" || v[0] !in "\"'" then None
          else
            var value := AttValue(v[1..], v[0]);
            if value.None? then None else Attributes(value.value.1, seen + [(name, value.value.0)])
  }

  function Before(events: seq<Event>, r: Option<seq<Event>>): Option<seq<Event>> {
    if r.None? then None else Some(events + r.value)
  }

  /** The events of a text; character data one character at a time. None if the text is
      none of what this tokenizer knows. */
  function Lex(s: string): Option<seq<Event>>
    decreases |s|
  {
    if s == "" then Some([])
    else if s[0] == '&' then
      var e := Entity(s);
      if e.None? then None else Before([Chars([e.value.0])], Lex(e.value.1))
    else if !IsChar(s[0]) then None
    else if StartsWith(s, "</") then
      var n := NameLength(s[2..]);
      var name, t := s[2..][..n], SkipSpace(s[2..][n..]);
      if !IsName(name) || !StartsWith(t, ">") then None else Before([EndTag(name)], Lex(t[1..]))
    else if s[0] == '<' then
      var n := NameLength(s[1..]);
      var name := s[1..][..n];
      var end := Attributes(s[1..][n..], []);
      if !IsName(name) || end.None? then None
      else
        Before([StartTag(name, end.value.attrs)] + (if end.value.empty then [EndTag(name)] else []), Lex(end.value.rest))
    else if StartsWith(s, "\r\n") then Lex(s[1..])
    else Before([Chars([if s[0] == '\r' then '\n' else s[0]])], Lex(s[1..]))
  }

  // ------------------------------------------------------- Lex, case by case

  lemma {:induction false} LexReference(s: string)
    requires s != "" && s[0] == '&'
    ensures Lex(s) == var e := Entity(s);
      if e.None? then None else Before([Chars([e.value.0])], Lex(e.value.1))
  {
    hide Entity;
  }

  lemma {:induction false} LexPlain(s: string)
    requires s != "" && IsChar(s[0]) && s[0] !in "<&\r"
    ensures Lex(s) == Before([Chars([s[0]])], Lex(s[1..]))
  {
  }

  lemma {:induction false} LexEndTag(s: string)
    requires StartsWith(s, "</")
    ensures Lex(s) == var n := NameLength(s[2..]);
      var name, t := s[2..][..n], SkipSpace(s[2..][n..]);
      if !IsName(name) || !StartsWith(t, ">") then None else Before([EndTag(name)], Lex(t[1..]))
  {
    assert s[0] == s[..2][0];
  }

  lemma {:induction false} LexStartTag(s: string)
    requires |s| > 1 && s[0] == '<' && s[1] != '/'
    ensures Lex(s) == var n := NameLength(s[1..]);
      var name, end := s[1..][..n], Attributes(s[1..][n..], []);
      if !IsName(name) || end.None? then None
      else
        Before([StartTag(name, end.value.attrs)] + (if end.value.empty then [EndTag(name)] else []), Lex(end.value.rest))
  {
    assert s[..2][1] == s[1];
  }

  lemma {:induction false} AttributesNext(s: string, seen: Attrs, name: string, v: string)
    requires s != "" && IsSpace(s[0]) && IsName(name) && forall i :: 0 <= i < |seen| ==> seen[i].0 != name
    requires var t := SkipSpace(s);
      && t != "" && t[0] != '>' && t[0] != '/' && NameLength(t) == |name| && t[..|name|] == name
      && var u := SkipSpace(t[|name|..]); StartsWith(u, "=") && SkipSpace(u[1..]) == v
    requires v != "" && v[0] == '"'
    ensures Attributes(s, seen) == var value := AttValue(v[1..], '"');
      if value.None? then None else Attributes(value.value.1, seen + [(name, value.value.0)])
  {
    assert |s| >= 1 ==> s[..1][0] == s[0];
    assert |s| >= 2 ==> s[..2][0] == s[0];
  }
}
