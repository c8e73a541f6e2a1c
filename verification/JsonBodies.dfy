/** The random JSON bodies: their generator, and what it prints. */
module JsonBodies {
  import opened Json
  import opened Wrappers
  import opened Arithmetic
  import opened Sequences

  const LOWER := "abcdefghijklmnopqrstuvwxyz"
  const UPPER := "ABCDEFGHIJKLMNOPQRSTUVWXYZ"
  const DIGITS := "0123456789"
  const ALPHANUM := UPPER + LOWER + DIGITS

  /** Characters that need no escape. */
  predicate Plain(s: string) {
    forall i :: 0 <= i < |s| ==> '0' <= s[i] <= 'z' && s[i] != '\\'
  }

  predicate GoodMember(m: Member) {
    Plain(m.0) && Plain(m.1) && 5 <= |m.0| <= 30 && 5 <= |m.1| <= 200
  }

  function NameText(name: string): string { "\"" + name + "\" : " }

  function ValueText(value: string): string { "\"" + value + "\"" }

  function MemberText(m: Member): (s: string)
    ensures |s| == |m.0| + |m.1| + 7
  {
    NameText(m.0) + ValueText(m.1)
  }

  function MembersText(ms: seq<Member>): string {
    if |ms| == 0 then ""
    else if |ms| == 1 then MemberText(ms[0])
    else MemberText(ms[0]) + "," + MembersText(ms[1..])
  }

  function ObjectText(ms: seq<Member>): string {
    "{ " + MembersText(ms) + " }"
  }

  /** The text of one member, letter by letter. */
  lemma TextOfOne(m: Member)
    ensures ObjectText([m]) == "{ \"" + m.0 + "\" : \"" + m.1 + "\" }"
  {
    assert MembersText([m]) == MemberText(m);
    assert "\" : " + ("\"" + m.1 + "\"") == "\" : \"" + m.1 + "\"";
  }

  /** And of one more: a comma, and nothing else, between two members. */
  lemma TextOfMore(m: Member, ms: seq<Member>)
    requires ms != []
    ensures MembersText([m] + ms) == MemberText(m) + "," + MembersText(ms)
  {
    assert ([m] + ms)[1..] == ms;
  }

  // ---------- what is printed parses back ----------

  lemma {:induction false} CloseStringPlain(text: string, rest: string)
    requires Plain(text)
    ensures CloseString(text + "\"" + rest) == Some((text, rest))
  {
    var s := text + "\"" + rest;
    if text == "" {
      assert s == "\"" + rest;
      assert s[1..] == rest;
    } else {
      assert s[1..] == text[1..] + "\"" + rest;
      CloseStringPlain(text[1..], rest);
      assert [text[0]] + text[1..] == text;
    }
  }

  lemma ParseStringPlain(text: string, rest: string)
    requires Plain(text)
    ensures ParseString("\"" + text + "\"" + rest) == Some((text, rest))
  {
    var s := "\"" + text + "\"" + rest;
    assert s[1..] == text + "\"" + rest;
    CloseStringPlain(text, rest);
  }

  lemma ExpectAfterSpace(c: char, rest: string)
    requires !IsSpace(c)
    ensures Expect([c] + rest, c) == Some(SkipSpace(rest))
    ensures Expect([' ', c] + rest, c) == Some(SkipSpace(rest))
  {
    assert ([c] + rest)[1..] == rest;
    assert ([' ', c] + rest)[1..] == [c] + rest;
  }

  lemma ParseMemberText(m: Member, rest: string)
    requires GoodMember(m)
    ensures ParseMember(MemberText(m) + rest) == Some((m, rest))
  {
    var value := "\"" + m.1 + "\"" + rest;
    var afterName := " : " + value;
    assert MemberText(m) + rest == NameText(m.0) + (ValueText(m.1) + rest);
    assert NameText(m.0) + value == "\"" + m.0 + "\"" + afterName;
    ParseStringPlain(m.0, afterName);
    assert afterName == [' ', ':'] + (" " + value);
    ExpectAfterSpace(':', " " + value);
    assert (" " + value)[1..] == value;
    assert SkipSpace(" " + value) == value;
    ParseStringPlain(m.1, rest);
  }

  lemma ExpectComma(tail: string)
    ensures Expect("," + tail, ',') == Some(SkipSpace(tail)) && Expect("," + tail, '}') == None
  {
    assert "," + tail == [','] + tail;
    ExpectAfterSpace(',', tail);
  }

  lemma ParseOneMore(m: Member, tail: string)
    requires GoodMember(m) && tail != "" && tail[0] == '"' && ParseMembers(tail).Some?
    ensures var (ms, end) := ParseMembers(tail).value;
            ParseMembers(MemberText(m) + ("," + tail)) == Some(([m] + ms, end))
  {
    ParseMemberText(m, "," + tail);
    ExpectComma(tail);
    assert SkipSpace(tail) == tail;
  }

  lemma {:induction false} ParseMembersText(ms: seq<Member>)
    requires |ms| > 0 && forall i :: 0 <= i < |ms| ==> GoodMember(ms[i])
    ensures ParseMembers(MembersText(ms) + " }") == Some((ms, ""))
  {
    if |ms| == 1 {
      assert ms == [ms[0]];
      ParseMemberText(ms[0], " }");
      ExpectAfterSpace('}', "");
      assert [' ', '}'] + "" == " }";
    } else {
      var tail := MembersText(ms[1..]) + " }";
      assert MembersText(ms) + " }" == MemberText(ms[0]) + ("," + tail);
      assert tail[0] == '"';
      ParseMembersText(ms[1..]);
      ParseOneMore(ms[0], tail);
      assert [ms[0]] + ms[1..] == ms;
    }
  }

  lemma ParsePrinted(ms: seq<Member>)
    requires |ms| > 0 && forall i :: 0 <= i < |ms| ==> GoodMember(ms[i])
    ensures ParseObject(ObjectText(ms)) == Some(ms)
  {
    var inner := MembersText(ms) + " }";
    assert ObjectText(ms) == ['{'] + (" " + inner);
    ExpectAfterSpace('{', " " + inner);
    assert inner[0] == '"';
    assert (" " + inner)[1..] == inner;
    assert SkipSpace(" " + inner) == inner;
    ParseMembersText(ms);
  }

  lemma {:induction false} MembersTextSnoc(ms: seq<Member>, m: Member)
    requires |ms| > 0
    ensures MembersText(ms + [m]) == MembersText(ms) + "," + MemberText(m)
  {
    if |ms| > 1 {
      assert (ms + [m])[1..] == ms[1..] + [m];
      MembersTextSnoc(ms[1..], m);
    } else {
      assert (ms + [m])[1..] == [m];
    }
  }

  /** The text built so far, when it is known that another member follows. */
  function OpenText(ms: seq<Member>): string {
    if ms == [] then "{ " else "{ " + MembersText(ms) + ","
  }

  lemma AppendMember(ms: seq<Member>, m: Member)
    ensures OpenText(ms) + NameText(m.0) + ValueText(m.1) == "{ " + MembersText(ms + [m])
  {
    Reassociate(OpenText(ms), NameText(m.0), ValueText(m.1));
    if ms == [] {
      assert ms + [m] == [m];
    } else {
      MembersTextSnoc(ms, m);
      Reassociate("{ ", MembersText(ms) + ",", MemberText(m));
      Reassociate("{ ", MembersText(ms), ",");
    }
  }

  // ---------- the generator ----------

  /** Random.nextInt(bound), for the draws of one source of randomness. */
  function NextInt(draws: nat -> nat, i: nat, bound: nat): (r: nat)
    requires bound > 0
    ensures r < bound && (draws(i) < bound ==> r == draws(i))
  {
    draws(i) % bound
  }

  /** `random`: between 5 and `maxSize` symbols, through the shared buffer. */
  method RandomString(buf: array<char>, maxSize: nat, symbols: string, draws: nat -> nat)
      returns (s: string)
    requires 4 < maxSize <= buf.Length && symbols != ""
    modifies buf
    ensures |s| == NextInt(draws, 0, maxSize - 4) + 5 && 5 <= |s| <= maxSize
    ensures DrawnFrom(s, maxSize, symbols, draws)
    ensures forall i :: |s| <= i < buf.Length ==> buf[i] == old(buf[i])
  {
    var size := NextInt(draws, 0, maxSize - 4) + 5;
    var idx := 0;
    while idx < size
      invariant 0 <= idx <= size
      invariant forall i :: 0 <= i < idx ==> buf[i] == symbols[NextInt(draws, i + 1, |symbols|)]
      invariant forall i :: size <= i < buf.Length ==> buf[i] == old(buf[i])
    {
      buf[idx] := symbols[NextInt(draws, idx + 1, |symbols|)];
      idx := idx + 1;
    }
    s := buf[..size];
  }

  predicate GoodFields(fields: seq<string>) {
    forall i :: 0 <= i < |fields| ==> Plain(fields[i]) && 5 <= |fields[i]| <= 30
  }

  predicate GoodValues(values: seq<string>) {
    forall i :: 0 <= i < |values| ==> Plain(values[i]) && 5 <= |values[i]| <= 200
  }

  /** The symbols: the lower-case letters, and the capitals, lower-case letters and digits, each once. */
  lemma Alphabets()
    ensures |LOWER| == 26 && |ALPHANUM| == 62
    ensures forall i :: 0 <= i < 26 ==> LOWER[i] as int == 'a' as int + i
    ensures forall i :: 0 <= i < 62 ==>
              ALPHANUM[i] as int == if i < 26 then 'A' as int + i else if i < 52 then 'a' as int + i - 26 else '0' as int + i - 52
  {
  }

  lemma AlphabetsArePlain()
    ensures Plain(LOWER) && Plain(ALPHANUM)
  {
    assert Plain(UPPER) && Plain(DIGITS);
  }

  /** The size of the text is the one drawn for it, and so is every character. */
  predicate DrawnFrom(text: string, maxSize: nat, symbols: string, draws: nat -> nat)
    requires maxSize > 4 && symbols != ""
  {
    && |text| == NextInt(draws, 0, maxSize - 4) + 5
    && forall j :: 0 <= j < |text| ==> text[j] == symbols[NextInt(draws, j + 1, |symbols|)]
  }

  lemma DrawnIsPlain(text: string, maxSize: nat, symbols: string, draws: nat -> nat)
    requires maxSize > 4 && symbols != "" && Plain(symbols) && DrawnFrom(text, maxSize, symbols, draws)
    ensures Plain(text) && 5 <= |text| <= maxSize
  {
  }

  /** One field and one value. */
  method DrawPair(buf: array<char>, fieldDraws: nat -> nat, valueDraws: nat -> nat) returns (field: string, value: string)
    requires buf.Length == 200
    modifies buf
    ensures DrawnFrom(field, 30, LOWER, fieldDraws) && DrawnFrom(value, 200, ALPHANUM, valueDraws)
    ensures Plain(field) && Plain(value) && 5 <= |field| <= 30 && 5 <= |value| <= 200
  {
    AlphabetsArePlain();
    field := RandomString(buf, 30, LOWER, fieldDraws);
    value := RandomString(buf, 200, ALPHANUM, valueDraws);
    DrawnIsPlain(field, 30, LOWER, fieldDraws);
    DrawnIsPlain(value, 200, ALPHANUM, valueDraws);
  }

  /** The two pools: every text keeps its own characters although the buffer is shared. */
  method Pools(fieldValueCount: nat, draws: nat -> nat -> nat)
      returns (fields: seq<string>, values: seq<string>)
    ensures |fields| == |values| == fieldValueCount
    ensures GoodFields(fields) && GoodValues(values)
    ensures forall i :: 0 <= i < fieldValueCount ==>
              DrawnFrom(fields[i], 30, LOWER, draws(2 * i)) && DrawnFrom(values[i], 200, ALPHANUM, draws(2 * i + 1))
  {
    var buf := new char[200];
    fields, values := [], [];
    for i := 0 to fieldValueCount
      invariant |fields| == |values| == i
      invariant GoodFields(fields) && GoodValues(values)
      invariant forall k :: 0 <= k < i ==>
                  DrawnFrom(fields[k], 30, LOWER, draws(2 * k)) && DrawnFrom(values[k], 200, ALPHANUM, draws(2 * k + 1))
    {
      var field, value := DrawPair(buf, draws(2 * i), draws(2 * i + 1));
      fields, values := fields + [field], values + [value];
    }
  }

  /** The members of a body, in order: the fields in turn, each with a random value. */
  function Members(fields: seq<string>, values: seq<string>, draws: nat -> nat, count: nat): (ms: seq<Member>)
    requires fields != [] && values != []
    ensures |ms| == count
    ensures forall k :: 0 <= k < count ==>
              ms[k] == (fields[k % |fields|], values[NextInt(draws, k, |values|)])
  {
    seq(count, k requires 0 <= k < count => (fields[k % |fields|], values[NextInt(draws, k, |values|)]))
  }

  lemma MembersStep(fields: seq<string>, values: seq<string>, draws: nat -> nat, k: nat)
    requires fields != [] && values != []
    ensures Members(fields, values, draws, k + 1)
         == Members(fields, values, draws, k) + [(fields[k % |fields|], values[NextInt(draws, k, |values|)])]
  {
  }

  function Max(a: int, b: int): int { if a > b then a else b }

  /**
   * The text of a body of `count` members. It parses back to those members, in order;
   * `count` is the least that makes the text without its end reach `bodySize`.
   */
  ghost predicate IsBody(bodySize: int, fields: seq<string>, values: seq<string>, draws: nat -> nat,
                         count: nat, text: string)
    requires fields != [] && values != []
  {
    && count > 0
    && text == ObjectText(Members(fields, values, draws, count))
    && ParseObject(text) == Some(Members(fields, values, draws, count))
    && bodySize + 2 <= |text| <= Max(bodySize, 2) + 239
    && forall k :: 0 < k < count ==> |ObjectText(Members(fields, values, draws, k))| < bodySize + 2
  }

  lemma BodyComplete(bodySize: int, fields: seq<string>, values: seq<string>, draws: nat -> nat, count: nat)
    requires |fields| == |values| > 0 && GoodFields(fields) && GoodValues(values) && count > 0
    requires |OpenText(Members(fields, values, draws, count - 1))| <= Max(bodySize, 2)
    requires |MembersText(Members(fields, values, draws, count))| + 2 >= bodySize
    requires forall k :: 0 < k < count ==> |ObjectText(Members(fields, values, draws, k))| < bodySize + 2
    ensures IsBody(bodySize, fields, values, draws, count, ObjectText(Members(fields, values, draws, count)))
  {
    ParsePrinted(Members(fields, values, draws, count));
    MembersStep(fields, values, draws, count - 1);
    var m := (fields[(count - 1) % |fields|], values[NextInt(draws, count - 1, |values|)]);
    assert GoodMember(m);
    AppendMember(Members(fields, values, draws, count - 1), m);
  }

  /** The text after `count` members, before the code decides whether to go on. */
  function Unclosed(fields: seq<string>, values: seq<string>, draws: nat -> nat, count: nat): string
    requires fields != [] && values != []
  {
    "{ " + MembersText(Members(fields, values, draws, count))
  }

  function Opened(fields: seq<string>, values: seq<string>, draws: nat -> nat, count: nat): string
    requires fields != [] && values != []
  {
    OpenText(Members(fields, values, draws, count))
  }

  lemma UnclosedStep(fields: seq<string>, values: seq<string>, draws: nat -> nat, k: nat)
    requires fields != [] && values != []
    ensures Opened(fields, values, draws, k)
              + NameText(fields[k % |fields|]) + ValueText(values[NextInt(draws, k, |values|)])
         == Unclosed(fields, values, draws, k + 1)
    ensures Opened(fields, values, draws, k + 1) == Unclosed(fields, values, draws, k + 1) + ","
    ensures |Unclosed(fields, values, draws, k + 1)| > |Opened(fields, values, draws, k)|
    ensures |ObjectText(Members(fields, values, draws, k + 1))| == |Unclosed(fields, values, draws, k + 1)| + 2
  {
    MembersStep(fields, values, draws, k);
    AppendMember(Members(fields, values, draws, k), (fields[k % |fields|], values[NextInt(draws, k, |values|)]));
  }

  datatype Result<T> = Success(value: T) | NoSuchElement

  /** One body, from the fields already shuffled. Without a field the first one is missing. */
  method BuildBody(bodySize: int, fields: seq<string>, values: seq<string>, draws: nat -> nat)
      returns (r: Result<string>, count: nat)
    requires |fields| == |values| && GoodFields(fields) && GoodValues(values)
    ensures r.NoSuchElement? <==> fields == []
    ensures r.Success? ==> IsBody(bodySize, fields, values, draws, count, r.value)
  {
    count := 0;
    if fields == [] {
      return NoSuchElement, 0;
    }
    var builder := "{ ";
    var cursor := 0;
    while true
      invariant 0 <= cursor <= |fields|
      invariant if cursor == |fields| then count % |fields| == 0 else cursor == count % |fields|
      invariant builder == Opened(fields, values, draws, count)
      invariant |builder| <= Max(bodySize, 2)
      invariant forall k :: 0 < k <= count ==> |ObjectText(Members(fields, values, draws, k))| < bodySize + 2
      decreases bodySize - |builder|
    {
      if cursor == |fields| {
        cursor := 0;
      }
      var field, value := fields[cursor], values[NextInt(draws, count, |values|)];
      cursor := cursor + 1;
      UnclosedStep(fields, values, draws, count);
      DivStep(count, |fields|);
      builder := builder + NameText(field);
      builder := builder + ValueText(value);
      count := count + 1;
      if |builder| < bodySize {
        builder := builder + ",";
      } else {
        break;
      }
    }
    BodyComplete(bodySize, fields, values, draws, count);
    builder := builder + " }";
    r := Success(builder);
  }
}
