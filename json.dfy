/**
 * The text form of a stored user record: a JSON object whose members are
 * written in a fixed order, with string values quoted and `"` and `\` escaped.
 * `SerializeUser` plays the part of `JSON.stringify` and `ParseUser` that of
 * `JSON.parse`; `None` from `ParseUser` stands for the exception `JSON.parse`
 * throws on text it cannot read.
 */
module Json {
  import opened Wrappers
  import opened Types

  /** A value read from the front of a text, with the text that follows it. */
  datatype Read<+T> = Read(value: T, rest: string)

  function RoleText(role: Role): string
  {
    match role
    case Vendeur => "vendeur"
    case Client => "client"
  }

  function RoleOf(text: string): (r: Option<Role>)
    ensures r.Some? ==> RoleText(r.value) == text
    ensures forall role: Role :: text == RoleText(role) ==> r == Some(role)
  {
    if text == "vendeur" then Some(Vendeur)
    else if text == "client" then Some(Client)
    else None
  }

  // ---- string literals ----

  function Escape(s: string): string
  {
    if s == [] then []
    else (if s[0] == '"' || s[0] == '\\' then ['\\', s[0]] else [s[0]]) + Escape(s[1..])
  }

  function Quote(s: string): string
  {
    "\"" + Escape(s) + "\""
  }

  /**
   * Reads the characters of a string literal whose opening quote has been
   * consumed, up to and including the closing quote. A backslash may only
   * precede `"` or `\`.
   */
  function ReadChars(t: string): (r: Option<Read<string>>)
    decreases |t|
  {
    if t == [] then None
    else if t[0] == '"' then Some(Read("", t[1..]))
    else if t[0] == '\\' then
      if |t| >= 2 && (t[1] == '"' || t[1] == '\\') then
        var r :- ReadChars(t[2..]);
        Some(Read([t[1]] + r.value, r.rest))
      else None
    else
      var r :- ReadChars(t[1..]);
      Some(Read([t[0]] + r.value, r.rest))
  }

  function ReadString(t: string): (r: Option<Read<string>>)
  {
    if |t| > 0 && t[0] == '"' then ReadChars(t[1..]) else None
  }

  lemma {:induction false} ReadCharsEscaped(s: string, rest: string)
    ensures ReadChars(Escape(s) + "\"" + rest) == Some(Read(s, rest))
    decreases |s|
  {
    var t := Escape(s) + "\"" + rest;
    if s == [] {
      assert t == "\"" + rest;
      assert t[1..] == rest;
    } else {
      ReadCharsEscaped(s[1..], rest);
      var tail := Escape(s[1..]) + "\"" + rest;
      if s[0] == '"' || s[0] == '\\' {
        assert t == ['\\', s[0]] + tail;
        assert t[2..] == tail;
      } else {
        assert t == [s[0]] + tail;
        assert t[1..] == tail;
      }
      assert [s[0]] + s[1..] == s;
    }
  }

  lemma ReadStringQuoted(s: string, rest: string)
    ensures ReadString(Quote(s) + rest) == Some(Read(s, rest))
  {
    var t := Quote(s) + rest;
    assert t[1..] == Escape(s) + "\"" + rest;
    ReadCharsEscaped(s, rest);
  }

  // ---- object members ----

  /** Consumes the literal `lit` from the front of `t`. */
  function Skip(lit: string, t: string): (r: Option<string>)
    ensures r.Some? ==> t == lit + r.value
  {
    if |lit| <= |t| && t[..|lit|] == lit then Some(t[|lit|..]) else None
  }

  lemma SkipPrefix(lit: string, rest: string)
    ensures Skip(lit, lit + rest) == Some(rest)
  {
    assert (lit + rest)[..|lit|] == lit;
    assert (lit + rest)[|lit|..] == rest;
  }

  /** The text that opens a member: a separator (`{` or `,`) and the quoted key. */
  function Label(sep: string, key: string): string
  {
    sep + "\"" + key + "\":"
  }

  function Entry(sep: string, key: string, value: string): string
  {
    Label(sep, key) + Quote(value)
  }

  function OptionalEntry(key: string, value: Option<string>): string
  {
    match value
    case None => ""
    case Some(v) => Entry(",", key, v)
  }

  function ReadEntry(sep: string, key: string, t: string): (r: Option<Read<string>>)
  {
    var r :- Skip(Label(sep, key), t);
    ReadString(r)
  }

  /** An optional member is present exactly when its label follows. */
  function ReadOptionalEntry(key: string, t: string): (r: Option<Read<Option<string>>>)
  {
    if Skip(Label(",", key), t).Some? then
      var e :- ReadEntry(",", key, t);
      Some(Read(Some(e.value), e.rest))
    else Some(Read(None, t))
  }

  lemma ReadEntryOfEntry(sep: string, key: string, value: string, rest: string)
    ensures ReadEntry(sep, key, Entry(sep, key, value) + rest) == Some(Read(value, rest))
  {
    assert Entry(sep, key, value) + rest == Label(sep, key) + (Quote(value) + rest);
    SkipPrefix(Label(sep, key), Quote(value) + rest);
    ReadStringQuoted(value, rest);
  }

  lemma ReadOptionalEntryOf(key: string, value: Option<string>, rest: string)
    requires value.None? ==> Skip(Label(",", key), rest).None?
    ensures ReadOptionalEntry(key, OptionalEntry(key, value) + rest) == Some(Read(value, rest))
  {
    match value
    case None =>
      assert OptionalEntry(key, value) + rest == rest;
    case Some(v) =>
      var t := Entry(",", key, v) + rest;
      assert OptionalEntry(key, value) + rest == t;
      assert t == Label(",", key) + (Quote(v) + rest);
      SkipPrefix(Label(",", key), Quote(v) + rest);
      ReadEntryOfEntry(",", key, v, rest);
  }

  // ---- the user record ----

  /** The optional contact members and the closing brace. */
  function Contacts(phone: Option<string>, whatsappNumber: Option<string>): string
  {
    OptionalEntry("phone", phone) + (OptionalEntry("whatsappNumber", whatsappNumber) + "}")
  }

  /** The stored form of a user, as `JSON.stringify` writes it. */
  function SerializeUser(u: User): (s: string)
    ensures |s| > 0 && s[0] == '{'
  {
    Entry("{", "id", u.id) +
    (Entry(",", "email", u.email) +
    (Entry(",", "name", u.name) +
    (Entry(",", "type", RoleText(u.role)) +
    (Entry(",", "createdAt", u.createdAt) +
    Contacts(u.phone, u.whatsappNumber)))))
  }

  /** Reads the optional contact members, then the closing brace that ends the text. */
  function ReadContacts(t: string): (r: Option<(Option<string>, Option<string>)>)
  {
    var phone :- ReadOptionalEntry("phone", t);
    var whatsapp :- ReadOptionalEntry("whatsappNumber", phone.rest);
    var rest :- Skip("}", whatsapp.rest);
    if rest == [] then Some((phone.value, whatsapp.value)) else None
  }

  /** Reads a stored user back; `None` where `JSON.parse` would throw. */
  function ParseUser(t: string): (r: Option<User>)
    ensures r.Some? ==> |t| > 0 && t[0] == '{'
  {
    var id :- ReadEntry("{", "id", t);
    var email :- ReadEntry(",", "email", id.rest);
    var name :- ReadEntry(",", "name", email.rest);
    var roleText :- ReadEntry(",", "type", name.rest);
    var role :- RoleOf(roleText.value);
    var createdAt :- ReadEntry(",", "createdAt", roleText.rest);
    var contacts :- ReadContacts(createdAt.rest);
    Some(User(id.value, email.value, name.value, role, createdAt.value, contacts.0, contacts.1))
  }

  lemma NotLabel(key: string, other: string, rest: string)
    requires |key| > 0 && |other| > 0 && key[0] != other[0]
    ensures Skip(Label(",", key), Label(",", other) + rest).None?
  {
    var t := Label(",", other) + rest;
    if |Label(",", key)| <= |t| {
      assert t[..|Label(",", key)|][2] == other[0];
    }
  }

  lemma ReadContactsOf(phone: Option<string>, whatsappNumber: Option<string>)
    ensures ReadContacts(Contacts(phone, whatsappNumber)) == Some((phone, whatsappNumber))
  {
    var tail := OptionalEntry("whatsappNumber", whatsappNumber) + "}";
    if phone.None? && whatsappNumber.Some? {
      assert tail == Label(",", "whatsappNumber") + (Quote(whatsappNumber.value) + "}");
      NotLabel("phone", "whatsappNumber", Quote(whatsappNumber.value) + "}");
    }
    ReadOptionalEntryOf("phone", phone, tail);
    ReadOptionalEntryOf("whatsappNumber", whatsappNumber, "}");
    SkipPrefix("}", []);
  }

  /** Reading back what was written gives the same user: `JSON.parse(JSON.stringify(u))`. */
  lemma ParseSerialize(u: User)
    ensures ParseUser(SerializeUser(u)) == Some(u)
  {
    var contacts := Contacts(u.phone, u.whatsappNumber);
    var tailC := Entry(",", "createdAt", u.createdAt) + contacts;
    var tailT := Entry(",", "type", RoleText(u.role)) + tailC;
    var tailN := Entry(",", "name", u.name) + tailT;
    var tailE := Entry(",", "email", u.email) + tailN;
    var t := Entry("{", "id", u.id) + tailE;
    assert t == SerializeUser(u);
    ReadEntryOfEntry("{", "id", u.id, tailE);
    ReadEntryOfEntry(",", "email", u.email, tailN);
    ReadEntryOfEntry(",", "name", u.name, tailT);
    ReadEntryOfEntry(",", "type", RoleText(u.role), tailC);
    ReadEntryOfEntry(",", "createdAt", u.createdAt, contacts);
    ReadContactsOf(u.phone, u.whatsappNumber);
    assert ParseUser(t) == Some(u);
  }

  // ---- reading accepts only what writing produces ----

  lemma {:induction false} ReadCharsInverse(t: string)
    ensures ReadChars(t).Some? ==> t == Escape(ReadChars(t).value.value) + "\"" + ReadChars(t).value.rest
    decreases |t|
  {
    if t != [] && t[0] != '"' {
      if t[0] == '\\' {
        if |t| >= 2 && (t[1] == '"' || t[1] == '\\') {
          ReadCharsInverse(t[2..]);
          if ReadChars(t[2..]).Some? {
            var r := ReadChars(t[2..]).value;
            var v := [t[1]] + r.value;
            assert v[1..] == r.value;
            assert Escape(v) == ['\\', t[1]] + Escape(r.value);
            assert t == [t[0], t[1]] + t[2..];
          }
        }
      } else {
        ReadCharsInverse(t[1..]);
        if ReadChars(t[1..]).Some? {
          var r := ReadChars(t[1..]).value;
          var v := [t[0]] + r.value;
          assert v[1..] == r.value;
          assert Escape(v) == [t[0]] + Escape(r.value);
          assert t == [t[0]] + t[1..];
        }
      }
    }
  }

  lemma QuoteThen(v: string, rest: string)
    ensures Quote(v) + rest == "\"" + (Escape(v) + "\"" + rest)
  {
  }

  lemma ReadStringInverse(u: string)
    ensures ReadString(u).Some? ==> u == Quote(ReadString(u).value.value) + ReadString(u).value.rest
  {
    if ReadString(u).Some? {
      var r := ReadChars(u[1..]).value;
      ReadCharsInverse(u[1..]);
      QuoteThen(r.value, r.rest);
      assert u == [u[0]] + u[1..];
    }
  }

  lemma ReadEntryInverse(sep: string, key: string, t: string)
    ensures ReadEntry(sep, key, t).Some? ==>
              t == Entry(sep, key, ReadEntry(sep, key, t).value.value) + ReadEntry(sep, key, t).value.rest
  {
    var after := Skip(Label(sep, key), t);
    if after.Some? {
      ReadStringInverse(after.value);
      if ReadString(after.value).Some? {
        var r := ReadString(after.value).value;
        assert t == Label(sep, key) + (Quote(r.value) + r.rest);
      }
    }
  }

  lemma ReadOptionalEntryInverse(key: string, t: string)
    ensures ReadOptionalEntry(key, t).Some? ==>
              t == OptionalEntry(key, ReadOptionalEntry(key, t).value.value) + ReadOptionalEntry(key, t).value.rest
  {
    ReadEntryInverse(",", key, t);
  }

  lemma ReadContactsInverse(t: string)
    ensures ReadContacts(t).Some? ==> t == Contacts(ReadContacts(t).value.0, ReadContacts(t).value.1)
  {
    ReadOptionalEntryInverse("phone", t);
    if ReadOptionalEntry("phone", t).Some? {
      ReadOptionalEntryInverse("whatsappNumber", ReadOptionalEntry("phone", t).value.rest);
    }
  }

  /**
   * A record that reads back at all is exactly the stored form of the user it
   * reads as: parsing accepts no other spelling of a user.
   */
  lemma SerializeParse(t: string)
    ensures ParseUser(t).Some? ==> SerializeUser(ParseUser(t).value) == t
  {
    var id := ReadEntry("{", "id", t);
    if ParseUser(t).Some? {
      ReadEntryInverse("{", "id", t);
      var email := ReadEntry(",", "email", id.value.rest);
      ReadEntryInverse(",", "email", id.value.rest);
      var name := ReadEntry(",", "name", email.value.rest);
      ReadEntryInverse(",", "name", email.value.rest);
      var roleText := ReadEntry(",", "type", name.value.rest);
      ReadEntryInverse(",", "type", name.value.rest);
      var createdAt := ReadEntry(",", "createdAt", roleText.value.rest);
      ReadEntryInverse(",", "createdAt", roleText.value.rest);
      ReadContactsInverse(createdAt.value.rest);
    }
  }
}
