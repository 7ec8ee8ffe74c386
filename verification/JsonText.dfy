/**
 JSON text as sections 2 to 7 of RFC 8259 write it: trees that keep every character of the source, white
 space, escapes and number spelling included.
 */
module JsonText {
  import opened Tables
  import opened Decimal

  datatype Json =
    | Word(word: string)
    | Number(minus: bool, whole: string, fraction: string, exponent: string)
    | Quoted(raw: string)
    | Array(items: Items)
    | Object(members: Members)

  /** Values separated by commas, each with the white space around it. */
  datatype Items =
    | NoItem(space: string)
    | LastItem(before: string, value: Json, after: string)
    | Item(before: string, value: Json, after: string, rest: Items)

  /** Members separated by commas: key, colon and value, each with the white space around it. */
  datatype Members =
    | NoMember(space: string)
    | LastMember(before: string, key: string, colon: string, gap: string, value: Json, after: string)
    | Member(before: string, key: string, colon: string, gap: string, value: Json, after: string, rest: Members)

  // ----- The grammar -----

  predicate IsWhite(c: char) { c in {' ', '\t', '\n', '\r'} }

  predicate Space(s: string) { forall i :: 0 <= i < |s| ==> IsWhite(s[i]) }

  predicate Digits(s: string) { s != "" && AllDigits(s) }

  predicate IsHex(c: char) { IsDigit(c) || 'a' <= c <= 'f' || 'A' <= c <= 'F' }

  predicate ExponentOk(s: string) {
    s == ""
    || (2 <= |s| && s[0] in {'e', 'E'} && (Digits(s[1..]) || (s[1] in {'+', '-'} && Digits(s[2..]))))
  }

  /** What stands between the quotes of a string. */
  predicate RawOk(raw: string) {
    raw == ""
    || (raw[0] == '\\' && 2 <= |raw| && EscapeOk(raw[1..]) && RawOk(raw[2..]))
    || (raw[0] !in {'"', '\\'} && ' ' <= raw[0] && RawOk(raw[1..]))
  }

  predicate EscapeOk(s: string) {
    s != "" && s[0] in {'"', '\\', '/', 'b', 'f', 'n', 'r', 't', 'u'}
    && (s[0] == 'u' ==> 5 <= |s| && forall i :: 1 <= i < 5 ==> IsHex(s[i]))
  }

  predicate Ok(v: Json) {
    match v
    case Word(word) => word in {"true", "false", "null"}
    case Number(_, whole, fraction, exponent) =>
      Digits(whole) && (whole[0] == '0' ==> |whole| == 1) && (fraction == "" || Digits(fraction))
          && ExponentOk(exponent)
    case Quoted(raw) => RawOk(raw)
    case Array(items) => ItemsOk(items)
    case Object(members) => MembersOk(members)
  }

  predicate ItemsOk(items: Items) {
    match items
    case NoItem(space) => Space(space)
    case LastItem(before, value, after) => Space(before) && Ok(value) && Space(after)
    case Item(before, value, after, rest) =>
        Space(before) && Ok(value) && Space(after) && !rest.NoItem? && ItemsOk(rest)
  }

  predicate MembersOk(members: Members) {
    match members
    case NoMember(space) => Space(space)
    case LastMember(before, key, colon, gap, value, after) =>
      Space(before) && RawOk(key) && Space(colon) && Space(gap) && Ok(value) && Space(after)
    case Member(before, key, colon, gap, value, after, rest) =>
      Space(before) && RawOk(key) && Space(colon) && Space(gap) && Ok(value) && Space(after) && !rest.NoMember?
          && MembersOk(rest)
  }

  // ----- The text -----

  function Quote(raw: string): string { "\"" + raw + "\"" }

  function Text(v: Json): string {
    match v
    case Word(word) => word
    case Number(minus, whole, fraction, exponent) =>
      (if minus then "-" else "") + whole + (if fraction == "" then "" else "." + fraction) + exponent
    case Quoted(raw) => Quote(raw)
    case Array(items) => "[" + ItemsText(items) + "]"
    case Object(members) => "{" + MembersText(members) + "}"
  }

  function ItemsText(items: Items): string {
    match items
    case NoItem(space) => space
    case LastItem(before, value, after) => before + Text(value) + after
    case Item(before, value, after, rest) => before + Text(value) + after + "," + ItemsText(rest)
  }

  function MembersText(members: Members): string {
    match members
    case NoMember(space) => space
    case LastMember(before, key, colon, gap, value, after) =>
      before + Quote(key) + colon + ":" + gap + Text(value) + after
    case Member(before, key, colon, gap, value, after, rest) =>
      before + Quote(key) + colon + ":" + gap + Text(value) + after + "," + MembersText(rest)
  }

  /** The value of the first member whose key is written as `key`. */
  function FirstNamed(members: Members, key: string): Option<Json> {
    match members
    case NoMember(_) => None
    case LastMember(_, k, _, _, value, _) => if k == key then Some(value) else None
    case Member(_, k, _, _, value, _, rest) => if k == key then Some(value) else FirstNamed(rest, key)
  }
}
