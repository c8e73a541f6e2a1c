/** JSON objects of string members: a parser for the texts the generator prints (RFC 8259, section 4). */
module Json {
  import opened Wrappers

  type Member = (string, string)

  predicate IsSpace(c: char) { c == ' ' || c == '\t' || c == '\n' || c == '\r' }

  function SkipSpace(s: string): (rest: string)
    ensures |rest| <= |s|
  {
    if s != "" && IsSpace(s[0]) then SkipSpace(s[1..]) else s
  }

  /** The characters up to the closing quotation mark. Escapes are not part of this model. */
  function CloseString(s: string): (r: Option<(string, string)>)
    ensures r.Some? ==> |r.value.1| < |s|
  {
    if s == "" || s[0] == '\\' || s[0] < ' ' then None
    else if s[0] == '"' then Some(("", s[1..]))
    else
      match CloseString(s[1..])
      case None => None
      case Some((text, rest)) => Some(([s[0]] + text, rest))
  }

  function ParseString(s: string): (r: Option<(string, string)>)
    ensures r.Some? ==> |r.value.1| < |s|
  {
    if s != "" && s[0] == '"' then CloseString(s[1..]) else None
  }

  function Expect(s: string, c: char): (r: Option<string>)
    ensures r.Some? ==> |r.value| < |s|
  {
    var t := SkipSpace(s);
    if t != "" && t[0] == c then Some(SkipSpace(t[1..])) else None
  }

  function ParseMember(s: string): (r: Option<(Member, string)>)
    ensures r.Some? ==> |r.value.1| < |s|
  {
    match ParseString(s)
    case None => None
    case Some((name, afterName)) =>
      match Expect(afterName, ':')
      case None => None
      case Some(atValue) =>
        match ParseString(atValue)
        case None => None
        case Some((value, rest)) => Some(((name, value), rest))
  }

  /** One member or more, up to and including the closing brace. */
  function ParseMembers(s: string): Option<(seq<Member>, string)>
    decreases |s|
  {
    match ParseMember(s)
    case None => None
    case Some((member, rest)) =>
      var closed := Expect(rest, '}');
      if closed.Some? then Some(([member], closed.value))
      else
        match Expect(rest, ',')
        case None => None
        case Some(next) =>
          match ParseMembers(next)
          case None => None
          case Some((members, end)) => Some(([member] + members, end))
  }

  /** A whole text holding one object. */
  function ParseObject(s: string): Option<seq<Member>> {
    match Expect(s, '{')
    case None => None
    case Some(inner) =>
      if Expect(inner, '}') == Some("") then Some([])
      else
        match ParseMembers(inner)
        case None => None
        case Some((members, end)) => if end == "" then Some(members) else None
  }
}
