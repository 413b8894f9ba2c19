/**
 * The chat data types of src/models.rs: the closed `Role` enum with its
 * case-insensitive (and partial) parse and its display form, the persisted
 * `Message` with its constructors and `update_content`, and `Conversation`.
 * Identifiers (`Uuid::new_v4()`) and timestamps (`Utc::now()`) are taken as
 * parameters.
 */
module Models {

  type Uuid = nat
  type Timestamp = int

  datatype Role = System | User | Assistant

  // ---------------------------------------------------------------------------
  // Lower-casing, as far as `to_lowercase` matters for the three role names

  /** `char::to_lowercase` on every character whose lower case is an ASCII
      letter: 'A'..'Z' and the Kelvin sign U+212A (which lower-cases to 'k').
      Every other character is kept, which never turns a non-matching name
      into a matching one. */
  function LowerChar(c: char): char
  {
    if 'A' <= c <= 'Z' then (c as int + 32) as char
    else if c as int == 0x212A then 'k'
    else c
  }

  function UpperChar(c: char): char
  {
    if 'a' <= c <= 'z' then (c as int - 32) as char else c
  }

  function Lower(s: string): string
  {
    seq(|s|, i requires 0 <= i < |s| => LowerChar(s[i]))
  }

  predicate IsLowerAscii(s: string)
  {
    forall i :: 0 <= i < |s| ==> 'a' <= s[i] <= 'z'
  }

  /** A word of lower-case ASCII letters is its own lower case. */
  lemma LowerOfLowerAscii(s: string)
    requires IsLowerAscii(s)
    ensures Lower(s) == s
  {
    assert forall i :: 0 <= i < |s| ==> Lower(s)[i] == s[i];
  }

  // ---------------------------------------------------------------------------
  // Role (models.rs:16-48)

  /** The strings `From<&str>`/`From<String>` accept without panicking. */
  predicate IsRoleName(s: string)
  {
    var v := Lower(s);
    v == "system" || v == "user" || v == "assistant"
  }

  /** `impl Display for Role`. */
  function RoleName(r: Role): (s: string)
    ensures IsLowerAscii(s) && Lower(s) == s && IsRoleName(s)
  {
    match r
    case System => LowerOfLowerAscii("system"); "system"
    case User => LowerOfLowerAscii("user"); "user"
    case Assistant => LowerOfLowerAscii("assistant"); "assistant"
  }

  /** `impl From<&str> for Role`: lower-case, then match; any other input
      panics, hence the precondition. */
  function RoleFromStr(s: string): (r: Role)
    requires IsRoleName(s)
    ensures RoleName(r) == Lower(s)
  {
    var v := Lower(s);
    if v == "system" then System
    else if v == "user" then User
    else Assistant
  }

  /** `impl From<String> for Role`, written out separately in the source. */
  function RoleFromString(s: string): (r: Role)
    requires IsRoleName(s)
    ensures RoleName(r) == Lower(s)
    ensures r == RoleFromStr(s)
  {
    var v := Lower(s);
    if v == "system" then System
    else if v == "user" then User
    else Assistant
  }

  /** Parsing the displayed form of a role gives that role back. */
  lemma RoleRoundTrip(r: Role)
    ensures IsRoleName(RoleName(r)) && RoleFromStr(RoleName(r)) == r
  {
    var s := RoleName(r);
    assert RoleName(RoleFromStr(s)) == s;
  }

  /** Any spelling of a role name that differs from the displayed form only
      in letter case ("User", "USER", "uSeR") parses to that role. */
  lemma {:induction false} ParseIgnoresCase(r: Role, s: string)
    requires |s| == |RoleName(r)|
    requires forall i :: 0 <= i < |s| ==> s[i] == RoleName(r)[i] || s[i] == UpperChar(RoleName(r)[i])
    ensures IsRoleName(s) && RoleFromStr(s) == r
  {
    var name := RoleName(r);
    assert Lower(s) == name by {
      forall i | 0 <= i < |s|
        ensures Lower(s)[i] == name[i]
      {
        assert 'a' <= name[i] <= 'z';
      }
    }
    RoleRoundTrip(r);
  }

  // ---------------------------------------------------------------------------
  // Message (models.rs:51-81)

  /** A stored chat message; `role` is kept as the role's display string. */
  datatype Message = Message(
    id: Uuid,
    role: string,
    content: string,
    conversationId: Uuid,
    createdAt: Timestamp)

  /** `Message::new`: the role is stored in its display form. */
  function NewMessage(role: Role, content: string, conversationId: Uuid, id: Uuid, createdAt: Timestamp): (m: Message)
    ensures IsRoleName(m.role) && RoleFromStr(m.role) == role
    ensures m.content == content && m.conversationId == conversationId
    ensures m.id == id && m.createdAt == createdAt
  {
    RoleRoundTrip(role);
    Message(id, RoleName(role), content, conversationId, createdAt)
  }

  /** `Message::user`. */
  function UserMessage(content: string, conversationId: Uuid, id: Uuid, createdAt: Timestamp): (m: Message)
    ensures m.role == "user" && IsRoleName(m.role) && RoleFromStr(m.role) == User
    ensures m.content == content && m.conversationId == conversationId
    ensures m.id == id && m.createdAt == createdAt
  {
    NewMessage(User, content, conversationId, id, createdAt)
  }

  /** `Message::assistant`. */
  function AssistantMessage(content: string, conversationId: Uuid, id: Uuid, createdAt: Timestamp): (m: Message)
    ensures m.role == "assistant" && IsRoleName(m.role) && RoleFromStr(m.role) == Assistant
    ensures m.content == content && m.conversationId == conversationId
    ensures m.id == id && m.createdAt == createdAt
  {
    NewMessage(Assistant, content, conversationId, id, createdAt)
  }

  /** `Message::update_content`: `push_str` onto the content, in place on the
      caller's variable. */
  function UpdateContent(m: Message, update: string): (r: Message)
    ensures r.content == m.content + update
    ensures r.(content := m.content) == m
  {
    m.(content := m.content + update)
  }

  /** Two updates in a row are one update with the two pieces joined, and the
      old content is always a prefix of the new one. */
  lemma UpdateContentTwice(m: Message, a: string, b: string)
    ensures UpdateContent(UpdateContent(m, a), b) == UpdateContent(m, a + b)
    ensures m.content <= UpdateContent(m, a).content
  {
    assert m.content + a + b == m.content + (a + b);
  }

  // ---------------------------------------------------------------------------
  // Conversation (models.rs:83-98)

  datatype Conversation = Conversation(id: Uuid, name: string, createdAt: Timestamp)

  /** `Conversation::new`. */
  function NewConversation(name: string, id: Uuid, createdAt: Timestamp): (c: Conversation)
    ensures c.name == name && c.id == id && c.createdAt == createdAt
  {
    Conversation(id, name, createdAt)
  }
}
