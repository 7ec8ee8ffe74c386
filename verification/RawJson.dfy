/**
 Cutting the source text of one top-level member out of a JSON object without parsing it. The two scans
 are functions of the text still ahead; the service's index loops compute them.
 */
module RawJson {
  import opened Tables
  import opened Decimal
  import opened JsonText

  /** The `\s` of a regular expression: JSON's white space and more. */
  predicate IsSpace(c: char) {
    c in {' ', '\t', '\n', '\r', '\U{000B}', '\U{000C}', '\U{00A0}', '\U{1680}', '\U{2028}', '\U{2029}', '\U{202F}',
        '\U{205F}', '\U{3000}', '\U{FEFF}'}
    || '\U{2000}' <= c <= '\U{200A}'
  }

  function SkipSpace(s: string): string {
    if s != "" && IsSpace(s[0]) then SkipSpace(s[1..]) else s
  }

  function Drop(s: string, n: nat): string { if |s| < n then "" else s[n..] }

  // ----- The scan for a key -----

  function Bump(c: char): int { if c in {'{', '['} then 1 else if c in {'}', ']'} then -1 else 0 }

  /** What follows the colon, if the text ahead is the quoted key and a colon. */
  function AfterKey(rest: string, key: string): Option<string> {
    if !(Quote(key) <= rest) then None
    else
      var tail := SkipSpace(rest[|Quote(key)|..]);
      if tail != "" && tail[0] == ':' then Some(tail[1..]) else None
  }

  /** What follows the colon of the first match at depth 1 outside strings. */
  function FindKey(rest: string, depth: int, inString: bool, key: string): Option<string>
    decreases |rest|
  {
    if rest == "" then None
    else if inString then
      if rest[0] == '\\' then FindKey(Drop(rest, 2), depth, true, key) else FindKey(rest[1..], depth,
          rest[0] != '"', key)
    else if rest[0] == '"' then
      if depth == 1 && AfterKey(rest, key).Some? then AfterKey(rest, key) else FindKey(rest[1..], depth, true, key)
    else FindKey(rest[1..], depth + Bump(rest[0]), false, key)
  }

  // ----- The scan to the end of a value -----

  /** What is left after the bracket that closes the one the scan began with; nothing if none does. */
  function PastBracket(rest: string, open: char, close: char, depth: int, inString: bool): string
    decreases |rest|
  {
    if rest == "" then ""
    else if inString then
      if rest[0] == '\\' then PastBracket(Drop(rest, 2), open, close, depth, true)
      else PastBracket(rest[1..], open, close, depth, rest[0] != '"')
    else if rest[0] == '"' then PastBracket(rest[1..], open, close, depth, true)
    else if rest[0] == open then PastBracket(rest[1..], open, close, depth + 1, false)
    else if rest[0] == close then
      if depth == 1 then rest[1..] else PastBracket(rest[1..], open, close, depth - 1, false)
    else PastBracket(rest[1..], open, close, depth, false)
  }

  function PastQuote(rest: string): string
    decreases |rest|
  {
    if rest == "" then "" else if rest[0] == '\\' then PastQuote(Drop(rest, 2)) else if rest[0]
        == '"' then rest[1..] else PastQuote(rest[1..])
  }

  predicate EndsScalar(c: char) { c in {',', '}', ']'} || IsSpace(c) }

  function PastScalar(rest: string): string {
    if rest == "" || EndsScalar(rest[0]) then rest else PastScalar(rest[1..])
  }

  function PastValue(rest: string): string {
    if rest != "" && rest[0] == '{' then PastBracket(rest, '{', '}', 0, false)
    else if rest != "" && rest[0] == '[' then PastBracket(rest, '[', ']', 0, false)
    else if rest != "" && rest[0] == '"' then PastQuote(rest[1..])
    else PastScalar(rest)
  }

  function Cut(rest: string, past: string): string {
    if |past| <= |rest| then rest[..|rest| - |past|] else ""
  }

  function ValueAhead(rest: string): string {
    var at := SkipSpace(rest);
    Cut(at, PastValue(at))
  }

  function Extract(text: string, key: string): Option<string> {
    match FindKey(text, 0, false, key)
    case None => None
    case Some(rest) => Some(ValueAhead(rest))
  }

  // ----- The index loops -----

  method FindTopLevelKey(text: string, key: string) returns (at: Option<nat>)
    ensures at.Some? ==> at.value <= |text|
    ensures FindKey(text, 0, false, key) == if at.Some? then Some(text[at.value..]) else None
  {
    var depth, inString, i := 0, false, 0;
    while i < |text|
      invariant 0 <= i <= |text| + 1
      invariant FindKey(text, 0, false, key) == FindKey(Drop(text, i), depth, inString, key)
    {
      var c := text[i];
      assert text[i..][0] == c && text[i..][1..] == Drop(text, i + 1) && Drop(text[i..], 2) == Drop(text, i + 2);
      if inString {
        if c == '\\' {
          i := i + 1;
        } else if c == '"' {
          inString := false;
        }
      } else if c == '"' {
        if depth == 1 {
          at := ColonAfterKey(text, i, key);
          if at.Some? {
            return;
          }
        }
        inString := true;
      } else if c == '{' || c == '[' {
        depth := depth + 1;
      } else if c == '}' || c == ']' {
        depth := depth - 1;
      }
      i := i + 1;
    }
    at := None;
  }

  /** Where the text goes on after the colon, if the quoted key and a colon stand at `i`. */
  method ColonAfterKey(text: string, i: nat, key: string) returns (at: Option<nat>)
    requires i < |text|
    ensures at.Some? ==> at.value <= |text|
    ensures AfterKey(text[i..], key) == if at.Some? then Some(text[at.value..]) else None
  {
    var needle := Quote(key);
    if !(needle <= text[i..]) {
      return None;
    }
    var j := i + |needle|;
    assert text[i..][|needle|..] == text[j..];
    while j < |text| && IsSpace(text[j])
      invariant i + |needle| <= j <= |text|
      invariant SkipSpace(text[i..][|needle|..]) == SkipSpace(text[j..])
    {
      j := j + 1;
    }
    at := if j < |text| && text[j] == ':' then Some(j + 1) else None;
  }

  method ExtractTopLevelJsonField(text: string, key: string) returns (field: Option<string>)
    ensures field == Extract(text, key)
  {
    var keyIndex := FindTopLevelKey(text, key);
    if keyIndex.None? {
      return None;
    }
    var i := keyIndex.value;
    while i < |text| && IsSpace(text[i])
      invariant keyIndex.value <= i <= |text|
      invariant SkipSpace(text[keyIndex.value..]) == SkipSpace(text[i..])
    {
      i := i + 1;
    }
    var start := i;
    if start < |text| && text[start] == '{' {
      i := ScanBracket(text, start, '{', '}');
    } else if start < |text| && text[start] == '[' {
      i := ScanBracket(text, start, '[', ']');
    } else if start < |text| && text[start] == '"' {
      i := ScanQuote(text, start + 1);
      assert text[start..][1..] == text[start + 1..];
    } else {
      while i < |text| && !EndsScalar(text[i])
        invariant start <= i <= |text|
        invariant PastScalar(text[start..]) == PastScalar(text[i..])
      {
        i := i + 1;
      }
    }
    assert text[i..] == PastValue(text[start..]);
    assert text[start..][..i - start] == text[start..i];
    field := Some(text[start..i]);
  }

  /** Where the value that opens at `start` ends. */
  method ScanBracket(text: string, start: nat, open: char, close: char) returns (end: nat)
    requires start < |text| && open != '"' && close != '"'
    ensures start <= end <= |text|
    ensures text[end..] == PastBracket(text[start..], open, close, 0, false)
  {
    var i, depth, inString := start, 0, false;
    while i < |text|
      invariant start <= i <= |text| + 1
      invariant PastBracket(text[start..], open, close, 0, false)
                == PastBracket(Drop(text, i), open, close, depth, inString)
    {
      var c := text[i];
      if inString {
        if c == '\\' {
          assert Drop(text[i..], 2) == Drop(text, i + 2);
          i := i + 1;
        } else if c == '"' {
          inString := false;
        }
      } else if c == '"' {
        inString := true;
      } else if c == open {
        depth := depth + 1;
      } else if c == close {
        depth := depth - 1;
        if depth == 0 {
          return i + 1;
        }
      }
      i := i + 1;
    }
    end := |text|;
  }

  method ScanQuote(text: string, start: nat) returns (end: nat)
    requires start <= |text|
    ensures start <= end <= |text|
    ensures text[end..] == PastQuote(text[start..])
  {
    var i := start;
    while i < |text|
      invariant start <= i <= |text| + 1
      invariant PastQuote(text[start..]) == PastQuote(Drop(text, i))
    {
      if text[i] == '\\' {
        assert Drop(text[i..], 2) == Drop(text, i + 2);
        i := i + 1;
      } else if text[i] == '"' {
        return i + 1;
      }
      i := i + 1;
    }
    end := |text|;
  }

  // ----- Scanning well-formed text for a key -----

  lemma StepFind(c: char, tail: string, depth: int, key: string)
    requires c != '"'
    ensures FindKey([c] + tail, depth, false, key) == FindKey(tail, depth + Bump(c), false, key)
  {
  }

  /** Characters that open, close or quote nothing leave the scan as it is. */
  predicate Plain(s: string) { forall i :: 0 <= i < |s| ==> s[i] !in {'"', '{', '}', '[', ']'} }

  lemma {:induction false} FindPastPlain(s: string, tail: string, depth: int, key: string)
    requires Plain(s)
    ensures FindKey(s + tail, depth, false, key) == FindKey(tail, depth, false, key)
  {
    if s == "" {
      assert s + tail == tail;
    } else {
      assert s + tail == [s[0]] + (s[1..] + tail);
      StepFind(s[0], s[1..] + tail, depth, key);
      FindPastPlain(s[1..], tail, depth, key);
    }
  }

  lemma {:induction false} FindPastRaw(raw: string, tail: string, depth: int, key: string)
    requires RawOk(raw)
    ensures FindKey(raw + "\"" + tail, depth, true, key) == FindKey(tail, depth, false, key)
    decreases |raw|
  {
    var text := raw + "\"" + tail;
    if raw == "" {
      assert text[1..] == tail;
    } else if raw[0] == '\\' {
      assert Drop(text, 2) == raw[2..] + "\"" + tail;
      FindPastRaw(raw[2..], tail, depth, key);
    } else {
      assert text[1..] == raw[1..] + "\"" + tail;
      FindPastRaw(raw[1..], tail, depth, key);
    }
  }

  /** A string that is not the key being sought: at another depth, or not followed by a colon. */
  lemma FindPastQuoted(raw: string, tail: string, depth: int, key: string)
    requires RawOk(raw) && (depth != 1 || AfterKey(Quote(raw) + tail, key).None?)
    ensures FindKey(Quote(raw) + tail, depth, false, key) == FindKey(tail, depth, false, key)
  {
    assert (Quote(raw) + tail)[1..] == raw + "\"" + tail;
    FindPastRaw(raw, tail, depth, key);
  }

  lemma NumberIsPlain(v: Json)
    requires Ok(v) && v.Number?
    ensures Text(v) != "" && forall i :: 0 <= i < |Text(v)| ==>
              IsDigit(Text(v)[i]) || Text(v)[i] in {'-', '+', '.', 'e', 'E'}
  {
  }

  /** A value below the top level hides everything in it. */
  lemma {:induction false} FindPastValue(v: Json, tail: string, depth: int, key: string)
    requires Ok(v) && 2 <= depth
    ensures FindKey(Text(v) + tail, depth, false, key) == FindKey(tail, depth, false, key)
    decreases v, 1
  {
    if v.Quoted? {
      FindPastQuoted(v.raw, tail, depth, key);
    } else if v.Array? || v.Object? {
      FindPastBracketed(v, tail, depth, key);
    } else {
      if v.Number? {
        NumberIsPlain(v);
      }
      FindPastPlain(Text(v), tail, depth, key);
    }
  }

  /** An array or object hides everything in it at the top level too. */
  lemma {:induction false} FindPastBracketed(v: Json, tail: string, depth: int, key: string)
    requires Ok(v) && 1 <= depth && (v.Array? || v.Object?)
    ensures FindKey(Text(v) + tail, depth, false, key) == FindKey(tail, depth, false, key)
    decreases v, 0
  {
    hide FindKey;
    var open, close := Text(v)[0], if v.Array? then ']' else '}';
    var body := if v.Array? then ItemsText(v.items) else MembersText(v.members);
    assert Text(v) + tail == [open] + (body + ([close] + tail));
    StepFind(open, body + ([close] + tail), depth, key);
    if v.Array? {
      FindPastItems(v.items, [close] + tail, depth + 1, key);
    } else {
      FindPastMembers(v.members, [close] + tail, depth + 1, key);
    }
    StepFind(close, tail, depth + 1, key);
  }

  lemma {:induction false} FindPastItems(items: Items, tail: string, depth: int, key: string)
    requires ItemsOk(items) && 2 <= depth
    ensures FindKey(ItemsText(items) + tail, depth, false, key) == FindKey(tail, depth, false, key)
    decreases items, 0
  {
    if items.NoItem? {
      FindPastPlain(items.space, tail, depth, key);
    } else {
      var more := if items.Item? then "," + (ItemsText(items.rest) + tail) else tail;
      assert ItemsText(items) + tail == items.before + (Text(items.value) + (items.after + more));
      FindPastPlain(items.before, Text(items.value) + (items.after + more), depth, key);
      FindPastValue(items.value, items.after + more, depth, key);
      FindPastPlain(items.after, more, depth, key);
      if items.Item? {
        FindPastPlain(",", ItemsText(items.rest) + tail, depth, key);
        FindPastItems(items.rest, tail, depth, key);
      }
    }
  }

  /** What comes after the value of a member: the rest of the object. */
  function AfterValue(members: Members, tail: string): string
    requires !members.NoMember?
  {
    members.after + if members.Member? then "," + (MembersText(members.rest) + tail) else tail
  }

  function AfterMemberKey(members: Members, tail: string): string
    requires !members.NoMember?
  {
    members.colon + (":" + (members.gap + (Text(members.value) + AfterValue(members, tail))))
  }

  lemma MembersUnfold(members: Members, tail: string)
    requires !members.NoMember?
    ensures MembersText(members) + tail == members.before + (Quote(members.key) + AfterMemberKey(members, tail))
  {
  }

  lemma {:induction false} FindPastMembers(members: Members, tail: string, depth: int, key: string)
    requires MembersOk(members) && 2 <= depth
    ensures FindKey(MembersText(members) + tail, depth, false, key) == FindKey(tail, depth, false, key)
    decreases members, 0
  {
    if members.NoMember? {
      FindPastPlain(members.space, tail, depth, key);
    } else {
      MembersUnfold(members, tail);
      FindPastPlain(members.before, Quote(members.key) + AfterMemberKey(members, tail), depth, key);
      FindPastQuoted(members.key, AfterMemberKey(members, tail), depth, key);
      FindPastColon(members, tail, depth, key);
      FindPastValue(members.value, AfterValue(members, tail), depth, key);
      FindPastSeparator(members, tail, depth, key);
      if members.Member? {
        FindPastMembers(members.rest, tail, depth, key);
      }
    }
  }

  lemma FindPastColon(members: Members, tail: string, depth: int, key: string)
    requires !members.NoMember? && Space(members.colon) && Space(members.gap)
    ensures FindKey(AfterMemberKey(members, tail), depth, false, key)
            == FindKey(Text(members.value) + AfterValue(members, tail), depth, false, key)
  {
    var value := Text(members.value) + AfterValue(members, tail);
    FindPastPlain(members.colon, ":" + (members.gap + value), depth, key);
    FindPastPlain(":", members.gap + value, depth, key);
    FindPastPlain(members.gap, value, depth, key);
  }

  lemma FindPastSeparator(members: Members, tail: string, depth: int, key: string)
    requires !members.NoMember? && Space(members.after)
    ensures FindKey(AfterValue(members, tail), depth, false, key)
            == FindKey(if members.Member? then MembersText(members.rest) + tail else tail, depth, false, key)
  {
    if members.Member? {
      FindPastPlain(members.after, "," + (MembersText(members.rest) + tail), depth, key);
      FindPastPlain(",", MembersText(members.rest) + tail, depth, key);
    } else {
      FindPastPlain(members.after, tail, depth, key);
    }
  }

  // ----- Recognising the key -----

  lemma {:induction false} SkipsSpace(space: string, tail: string)
    requires Space(space)
    ensures SkipSpace(space + tail) == SkipSpace(tail)
  {
    if space == "" {
      assert space + tail == tail;
    } else {
      assert (space + tail)[1..] == space[1..] + tail;
      SkipsSpace(space[1..], tail);
    }
  }

  /** Raw text that begins with the key and a quote is the key: a longer one would escape that quote. */
  lemma {:induction false} RawIsKey(raw: string, tail: string, key: string)
    requires RawOk(raw) && KeyOk(key)
    ensures (key + "\"" <= raw + "\"" + tail) <==> raw == key
    decreases |raw|
  {
    var text := raw + "\"" + tail;
    if key + "\"" <= text {
      assert text[..|key| + 1] == key + "\"";
      if raw == "" {
        assert (key + "\"")[0] == text[0] == '"';
      } else {
        assert text[0] == raw[0];
        assert key != "";
        assert key[0] == raw[0];
        assert raw[1..] + "\"" + tail == text[1..];
        assert key[1..] + "\"" == (key + "\"")[1..];
        RawIsKey(raw[1..], tail, key[1..]);
      }
    }
  }

  /** A key that can be written without escapes. */
  predicate KeyOk(key: string) { forall i :: 0 <= i < |key| ==> key[i] !in {'"', '\\'} }

  lemma QuotedIsKey(raw: string, tail: string, key: string)
    requires RawOk(raw) && KeyOk(key)
    ensures Quote(key) <= Quote(raw) + tail <==> raw == key
  {
    RawIsKey(raw, tail, key);
    assert (Quote(raw) + tail)[1..] == raw + "\"" + tail && Quote(key)[1..] == key + "\"";
    assert Quote(key) <= Quote(raw) + tail ==> Quote(key)[1..] <= (Quote(raw) + tail)[1..];
  }

  lemma AfterKeyIffNamed(raw: string, colon: string, tail: string, key: string)
    requires RawOk(raw) && KeyOk(key) && Space(colon)
    ensures AfterKey(Quote(raw) + (colon + (":" + tail)), key) == if raw == key then Some(tail) else None
  {
    var after := colon + (":" + tail);
    QuotedIsKey(raw, after, key);
    assert (Quote(raw) + after)[|Quote(raw)|..] == after;
    SkipsSpace(colon, ":" + tail);
    assert (":" + tail)[1..] == tail;
  }

  /** A string that stands as a value is followed by a comma or a brace, not by a colon. */
  lemma ValueIsNoKey(raw: string, after: string, tail: string, key: string)
    requires RawOk(raw) && KeyOk(key) && Space(after) && tail != "" && !IsSpace(tail[0]) && tail[0] != ':'
    ensures AfterKey(Quote(raw) + (after + tail), key).None?
  {
    QuotedIsKey(raw, after + tail, key);
    assert (Quote(raw) + (after + tail))[|Quote(raw)|..] == after + tail;
    SkipsSpace(after, tail);
  }

  // ----- Scanning well-formed text to the end of a value -----

  predicate Brackets(open: char, close: char) { (open == '{' && close == '}') || (open == '[' && close == ']') }

  lemma {:induction false} PastPlain(s: string, tail: string, open: char, close: char, depth: int)
    requires Plain(s) && Brackets(open, close)
    ensures PastBracket(s + tail, open, close, depth, false) == PastBracket(tail, open, close, depth, false)
  {
    if s == "" {
      assert s + tail == tail;
    } else {
      assert (s + tail)[1..] == s[1..] + tail;
      PastPlain(s[1..], tail, open, close, depth);
    }
  }

  lemma {:induction false} PastRaw(raw: string, tail: string, open: char, close: char, depth: int)
    requires RawOk(raw) && Brackets(open, close)
    ensures PastBracket(raw + "\"" + tail, open, close, depth, true) == PastBracket(tail, open, close, depth, false)
    decreases |raw|
  {
    var text := raw + "\"" + tail;
    if raw == "" {
      assert text[1..] == tail;
    } else if raw[0] == '\\' {
      assert Drop(text, 2) == raw[2..] + "\"" + tail;
      PastRaw(raw[2..], tail, open, close, depth);
    } else {
      assert text[1..] == raw[1..] + "\"" + tail;
      PastRaw(raw[1..], tail, open, close, depth);
    }
  }

  lemma PastQuoted(raw: string, tail: string, open: char, close: char, depth: int)
    requires RawOk(raw) && Brackets(open, close)
    ensures PastBracket(Quote(raw) + tail, open, close, depth, false) == PastBracket(tail, open, close, depth, false)
  {
    assert (Quote(raw) + tail)[1..] == raw + "\"" + tail;
    PastRaw(raw, tail, open, close, depth);
  }

  /** Inside brackets, a whole value leaves the depth as it was and never closes them. */
  lemma {:induction false} PastWhole(v: Json, tail: string, open: char, close: char, depth: int)
    requires Ok(v) && Brackets(open, close) && 1 <= depth
    ensures PastBracket(Text(v) + tail, open, close, depth, false) == PastBracket(tail, open, close, depth, false)
    decreases v, 1
  {
    if v.Quoted? {
      PastQuoted(v.raw, tail, open, close, depth);
    } else if v.Array? || v.Object? {
      PastBody(v, tail, open, close, depth);
      var c := if v.Array? then ']' else '}';
      assert ([c] + tail)[1..] == tail;
    } else {
      if v.Number? {
        NumberIsPlain(v);
      }
      PastPlain(Text(v), tail, open, close, depth);
    }
  }

  /** From the opening bracket of a value up to the bracket that closes it. */
  lemma {:induction false} PastBody(v: Json, tail: string, open: char, close: char, depth: int)
    requires Ok(v) && Brackets(open, close) && (v.Array? || v.Object?)
             && (1 <= depth || (depth == 0 && Text(v)[0] == open))
    ensures var c := if v.Array? then ']' else '}';
            PastBracket(Text(v) + tail, open, close, depth, false)
            == PastBracket([c] + tail, open, close, depth + if Text(v)[0] == open then 1 else 0, false)
    decreases v, 0
  {
    var c := if v.Array? then ']' else '}';
    var body := if v.Array? then ItemsText(v.items) else MembersText(v.members);
    var inner := depth + if Text(v)[0] == open then 1 else 0;
    assert Text(v) + tail == [Text(v)[0]] + (body + ([c] + tail));
    assert (Text(v) + tail)[1..] == body + ([c] + tail);
    if v.Array? {
      PastItems(v.items, [c] + tail, open, close, inner);
    } else {
      PastMembers(v.members, [c] + tail, open, close, inner);
    }
  }

  lemma {:induction false} PastItems(items: Items, tail: string, open: char, close: char, depth: int)
    requires ItemsOk(items) && Brackets(open, close) && 1 <= depth
    ensures PastBracket(ItemsText(items) + tail, open, close, depth, false)
            == PastBracket(tail, open, close, depth, false)
    decreases items, 0
  {
    if items.NoItem? {
      PastPlain(items.space, tail, open, close, depth);
    } else {
      var more := if items.Item? then "," + (ItemsText(items.rest) + tail) else tail;
      assert ItemsText(items) + tail == items.before + (Text(items.value) + (items.after + more));
      PastPlain(items.before, Text(items.value) + (items.after + more), open, close, depth);
      PastWhole(items.value, items.after + more, open, close, depth);
      PastPlain(items.after, more, open, close, depth);
      if items.Item? {
        PastPlain(",", ItemsText(items.rest) + tail, open, close, depth);
        PastItems(items.rest, tail, open, close, depth);
      }
    }
  }

  lemma {:induction false} PastMembers(members: Members, tail: string, open: char, close: char, depth: int)
    requires MembersOk(members) && Brackets(open, close) && 1 <= depth
    ensures PastBracket(MembersText(members) + tail, open, close, depth, false)
            == PastBracket(tail, open, close, depth, false)
    decreases members, 0
  {
    if members.NoMember? {
      PastPlain(members.space, tail, open, close, depth);
    } else {
      MembersUnfold(members, tail);
      var value := Text(members.value) + AfterValue(members, tail);
      PastPlain(members.before, Quote(members.key) + AfterMemberKey(members, tail), open, close, depth);
      PastQuoted(members.key, AfterMemberKey(members, tail), open, close, depth);
      PastPlain(members.colon, ":" + (members.gap + value), open, close, depth);
      PastPlain(":", members.gap + value, open, close, depth);
      PastPlain(members.gap, value, open, close, depth);
      PastWhole(members.value, AfterValue(members, tail), open, close, depth);
      if members.Member? {
        var rest := MembersText(members.rest) + tail;
        PastPlain(members.after, "," + rest, open, close, depth);
        PastPlain(",", rest, open, close, depth);
        PastMembers(members.rest, tail, open, close, depth);
      } else {
        PastPlain(members.after, tail, open, close, depth);
      }
    }
  }

  lemma {:induction false} PastQuoteOfRaw(raw: string, tail: string)
    requires RawOk(raw)
    ensures PastQuote(raw + "\"" + tail) == tail
    decreases |raw|
  {
    var text := raw + "\"" + tail;
    if raw == "" {
      assert text[1..] == tail;
    } else if raw[0] == '\\' {
      assert Drop(text, 2) == raw[2..] + "\"" + tail;
      PastQuoteOfRaw(raw[2..], tail);
    } else {
      assert text[1..] == raw[1..] + "\"" + tail;
      PastQuoteOfRaw(raw[1..], tail);
    }
  }

  lemma {:induction false} PastScalarOf(s: string, tail: string)
    requires (forall i :: 0 <= i < |s| ==> !EndsScalar(s[i])) && tail != "" && EndsScalar(tail[0])
    ensures PastScalar(s + tail) == tail
  {
    if s == "" {
      assert s + tail == tail;
    } else {
      assert (s + tail)[1..] == s[1..] + tail;
      PastScalarOf(s[1..], tail);
    }
  }

  lemma PastValueOf(v: Json, tail: string)
    requires Ok(v) && tail != "" && EndsScalar(tail[0])
    ensures PastValue(Text(v) + tail) == tail
  {
    if v.Quoted? {
      assert (Text(v) + tail)[1..] == v.raw + "\"" + tail;
      PastQuoteOfRaw(v.raw, tail);
    } else if v.Array? || v.Object? {
      var c := if v.Array? then ']' else '}';
      PastBody(v, tail, Text(v)[0], c, 0);
      assert ([c] + tail)[1..] == tail;
    } else {
      if v.Number? {
        NumberIsPlain(v);
      }
      PastScalarOf(Text(v), tail);
    }
  }

  lemma ValueStarts(v: Json)
    requires Ok(v)
    ensures Text(v) != "" && !IsSpace(Text(v)[0])
  {
  }

  /** From the colon on, the value ahead is the member's value, character for character. */
  lemma ValueAheadOf(gap: string, v: Json, tail: string)
    requires Space(gap) && Ok(v) && tail != "" && EndsScalar(tail[0])
    ensures ValueAhead(gap + (Text(v) + tail)) == Text(v)
  {
    ValueStarts(v);
    SkipsSpace(gap, Text(v) + tail);
    PastValueOf(v, tail);
    assert (Text(v) + tail)[..|Text(v)|] == Text(v);
  }

  // ----- The whole -----

  lemma SeparatorEnds(members: Members, tail: string)
    requires !members.NoMember? && MembersOk(members) && tail != "" && tail[0] == '}'
    ensures AfterValue(members, tail) != "" && EndsScalar(AfterValue(members, tail)[0])
    ensures AfterValue(members, tail) == members.after + if members.Member? then ","
            + (MembersText(members.rest) + tail) else tail
  {
  }

  /** At the top level a member's value is passed over whole, a string that spells the key included. */
  lemma PassesMemberValue(members: Members, tail: string, key: string)
    requires !members.NoMember? && MembersOk(members) && KeyOk(key) && tail != "" && tail[0] == '}'
    ensures FindKey(Text(members.value) + AfterValue(members, tail), 1, false, key)
            == FindKey(AfterValue(members, tail), 1, false, key)
  {
    var v := members.value;
    if v.Quoted? {
      ValueIsNoKey(v.raw, members.after, if members.Member? then ","
          + (MembersText(members.rest) + tail) else tail, key);
      FindPastQuoted(v.raw, AfterValue(members, tail), 1, key);
    } else if v.Array? || v.Object? {
      FindPastBracketed(v, AfterValue(members, tail), 1, key);
    } else {
      if v.Number? {
        NumberIsPlain(v);
      }
      FindPastPlain(Text(v), AfterValue(members, tail), 1, key);
    }
  }

  /** At the top level, a member that is not the one sought is passed over whole. */
  lemma PassesMember(members: Members, tail: string, key: string)
    requires !members.NoMember? && MembersOk(members) && KeyOk(key) && members.key != key && tail != ""
             && tail[0] == '}'
    ensures FindKey(MembersText(members) + tail, 1, false, key)
            == FindKey(if members.Member? then MembersText(members.rest) + tail else tail, 1, false, key)
  {
    hide FindKey;
    var after := AfterMemberKey(members, tail);
    MembersUnfold(members, tail);
    FindPastPlain(members.before, Quote(members.key) + after, 1, key);
    AfterKeyIffNamed(members.key, members.colon, members.gap + (Text(members.value) + AfterValue(members, tail)), key);
    FindPastQuoted(members.key, after, 1, key);
    FindPastColon(members, tail, 1, key);
    PassesMemberValue(members, tail, key);
    FindPastSeparator(members, tail, 1, key);
  }

  lemma FindsMember(members: Members, tail: string, key: string)
    requires !members.NoMember? && MembersOk(members) && KeyOk(key) && members.key == key && tail != ""
             && tail[0] == '}'
    ensures var found := FindKey(MembersText(members) + tail, 1, false, key);
            found.Some? && ValueAhead(found.value) == Text(members.value)
  {
    var rest := members.gap + (Text(members.value) + AfterValue(members, tail));
    MembersUnfold(members, tail);
    FindPastPlain(members.before, Quote(members.key) + AfterMemberKey(members, tail), 1, key);
    AfterKeyIffNamed(members.key, members.colon, rest, key);
    SeparatorEnds(members, tail);
    ValueAheadOf(members.gap, members.value, AfterValue(members, tail));
  }

  lemma {:induction false} FindsFirstNamed(members: Members, tail: string, key: string)
    requires MembersOk(members) && KeyOk(key) && tail != "" && tail[0] == '}'
    ensures var found := FindKey(MembersText(members) + tail, 1, false, key);
            match FirstNamed(members, key)
            case Some(v) => found.Some? && ValueAhead(found.value) == Text(v)
            case None => found == FindKey(tail, 1, false, key)
  {
    if members.NoMember? {
      FindPastPlain(members.space, tail, 1, key);
    } else if members.key == key {
      FindsMember(members, tail, key);
    } else {
      PassesMember(members, tail, key);
      if members.Member? {
        FindsFirstNamed(members.rest, tail, key);
      }
    }
  }

  /**
   For every well-formed object text, the field is the exact source text of the value of the first top-level
   member written with that key, whatever nested values and strings contain, and absent when there is none.
   */
  lemma ExtractsFirstNamed(before: string, members: Members, after: string, key: string)
    requires Space(before) && MembersOk(members) && Space(after) && KeyOk(key)
    ensures Extract(before + Text(Object(members)) + after, key)
            == match FirstNamed(members, key) case Some(v) => Some(Text(v)) case None => None
  {
    var closed := "}" + after;
    assert before + Text(Object(members)) + after == before + ("{" + (MembersText(members) + closed));
    FindPastPlain(before, "{" + (MembersText(members) + closed), 0, key);
    StepFind('{', MembersText(members) + closed, 0, key);
    FindsFirstNamed(members, closed, key);
    StepFind('}', after, 1, key);
    FindPastPlain(after, "", 0, key);
    assert after + "" == after;
  }
}
