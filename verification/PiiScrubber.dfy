/** The Sentry event scrubber, `_sentry_pii_filter` in `app/core/observability.py`. */
module PiiScrubbers {
  import opened Wrappers

  /** An event: dictionaries, lists, and values the scrubber does not look into. */
  datatype Value = Dict(fields: seq<Field>) | List(items: seq<Value>) | Text(text: string) | Other(value: int)

  datatype Field = Field(key: string, value: Value)

  const REDACTED := Text("[REDACTED]")

  /** Lower-case keys to blank out, and `str.lower`. */
  datatype Blocklist = Blocklist(keys: set<string>, lower: string -> string)

  predicate Blocked(b: Blocklist, key: string) {
    b.lower(key) in b.keys
  }

  const USER_PII_KEYS: set<string> := {
    "email", "telegram_id", "tg_id", "ip", "client_ip", "remote_addr", "x-forwarded-for", "user_agent",
    "user-agent", "init_data", "tg_init_data", "access_token", "refresh_token", "jwt", "jwt_secret",
    "session_token", "magic_link", "magic_link_url", "backup_code", "totp_secret", "authorization",
    "cookie", "set-cookie", "avatar_seed", "first_name", "last_name", "username"
  }

  /** `_get_blocked_pii_keys` */
  function BlockedKeys(adminKeys: set<string>, lower: string -> string): Blocklist {
    Blocklist((set key | key in adminKeys :: lower(key)) + USER_PII_KEYS, lower)
  }

  function Scrub(b: Blocklist, v: Value): Value {
    match v
    case Dict(fields) => Dict(ScrubFields(b, fields))
    case List(items) => List(ScrubItems(b, items))
    case _ => v
  }

  function ScrubFields(b: Blocklist, fields: seq<Field>): seq<Field> {
    if fields == [] then []
    else
      [Field(fields[0].key, if Blocked(b, fields[0].key) then REDACTED else Scrub(b, fields[0].value))] +
      ScrubFields(b, fields[1..])
  }

  function ScrubItems(b: Blocklist, items: seq<Value>): seq<Value> {
    if items == [] then [] else [Scrub(b, items[0])] + ScrubItems(b, items[1..])
  }

  lemma {:induction false} FieldAt(b: Blocklist, fields: seq<Field>, i: nat)
    requires i < |fields|
    ensures |ScrubFields(b, fields)| == |fields|
    ensures ScrubFields(b, fields)[i] ==
            Field(fields[i].key, if Blocked(b, fields[i].key) then REDACTED else Scrub(b, fields[i].value))
  {
    if i > 0 { FieldAt(b, fields[1..], i - 1); } else if |fields| > 1 { FieldAt(b, fields[1..], 0); }
  }

  lemma {:induction false} ItemAt(b: Blocklist, items: seq<Value>, i: nat)
    requires i < |items|
    ensures |ScrubItems(b, items)| == |items| && ScrubItems(b, items)[i] == Scrub(b, items[i])
  {
    if i > 0 { ItemAt(b, items[1..], i - 1); } else if |items| > 1 { ItemAt(b, items[1..], 0); }
  }

  // What is kept and what is not.

  datatype Hop = Key(i: nat) | Item(i: nat)

  /** Follow field and item positions from the root. */
  function At(v: Value, path: seq<Hop>): Option<Value>
    decreases |path|
  {
    if path == [] then Some(v)
    else match (v, path[0])
      case (Dict(fields), Key(i)) => if i < |fields| then At(fields[i].value, path[1..]) else None
      case (List(items), Item(i)) => if i < |items| then At(items[i], path[1..]) else None
      case _ => None
  }

  /** The path goes into or through the value of a blocked key. */
  predicate Hidden(b: Blocklist, v: Value, path: seq<Hop>)
    decreases |path|
  {
    if path == [] then false
    else match (v, path[0])
      case (Dict(fields), Key(i)) =>
        i < |fields| && (Blocked(b, fields[i].key) || Hidden(b, fields[i].value, path[1..]))
      case (List(items), Item(i)) => i < |items| && Hidden(b, items[i], path[1..])
      case _ => false
  }

  /** Off the blocked keys every place holds what it held, scrubbed: keys, list positions and leaves all stay. */
  lemma {:induction false} KeptOutside(b: Blocklist, v: Value, path: seq<Hop>)
    requires !Hidden(b, v, path)
    ensures At(Scrub(b, v), path) == match At(v, path) case Some(w) => Some(Scrub(b, w)) case None => None
    decreases |path|
  {
    if path != [] {
      match (v, path[0]) {
        case (Dict(fields), Key(i)) =>
          if i < |fields| { FieldAt(b, fields, i); KeptOutside(b, fields[i].value, path[1..]); }
          else if fields != [] { FieldAt(b, fields, 0); }
        case (List(items), Item(i)) =>
          if i < |items| { ItemAt(b, items, i); KeptOutside(b, items[i], path[1..]); }
          else if items != [] { ItemAt(b, items, 0); }
        case _ =>
      }
    }
  }

  /** Anything reached through a blocked key is the marker, and there is nothing below it. */
  lemma {:induction false} RedactedInside(b: Blocklist, v: Value, path: seq<Hop>)
    requires Hidden(b, v, path)
    ensures At(Scrub(b, v), path) == Some(Text("[REDACTED]")) || At(Scrub(b, v), path) == None
    decreases |path|
  {
    match (v, path[0]) {
      case (Dict(fields), Key(i)) =>
        FieldAt(b, fields, i);
        if Blocked(b, fields[i].key) {
          assert At(Scrub(b, v), path) == At(REDACTED, path[1..]);
        } else {
          RedactedInside(b, fields[i].value, path[1..]);
        }
      case (List(items), Item(i)) =>
        ItemAt(b, items, i);
        RedactedInside(b, items[i], path[1..]);
      case _ =>
    }
  }

  // What the result depends on.

  /** The same, but for what is under blocked keys. */
  predicate SameOutside(b: Blocklist, v: Value, w: Value) {
    match v
    case Dict(fields) => w.Dict? && SameFields(b, fields, w.fields)
    case List(items) => w.List? && SameItems(b, items, w.items)
    case _ => v == w
  }

  predicate SameFields(b: Blocklist, fields: seq<Field>, others: seq<Field>) {
    if fields == [] then others == []
    else
      && others != [] && others[0].key == fields[0].key
      && (Blocked(b, fields[0].key) || SameOutside(b, fields[0].value, others[0].value))
      && SameFields(b, fields[1..], others[1..])
  }

  predicate SameItems(b: Blocklist, items: seq<Value>, others: seq<Value>) {
    if items == [] then others == []
    else others != [] && SameOutside(b, items[0], others[0]) && SameItems(b, items[1..], others[1..])
  }

  /** Two events scrub to the same exactly when they differ only under blocked keys. */
  lemma {:induction false} NonInterference(b: Blocklist, v: Value, w: Value)
    ensures Scrub(b, v) == Scrub(b, w) <==> SameOutside(b, v, w)
  {
    match v {
      case Dict(fields) => if w.Dict? { FieldsNonInterference(b, fields, w.fields); }
      case List(items) => if w.List? { ItemsNonInterference(b, items, w.items); }
      case _ =>
    }
  }

  lemma {:induction false} FieldsNonInterference(b: Blocklist, fields: seq<Field>, others: seq<Field>)
    ensures ScrubFields(b, fields) == ScrubFields(b, others) <==> SameFields(b, fields, others)
  {
    if fields != [] && others != [] {
      NonInterference(b, fields[0].value, others[0].value);
      FieldsNonInterference(b, fields[1..], others[1..]);
      var p, q := ScrubFields(b, fields), ScrubFields(b, others);
      assert p[1..] == ScrubFields(b, fields[1..]) && q[1..] == ScrubFields(b, others[1..]);
      assert p == [p[0]] + p[1..] && q == [q[0]] + q[1..];
    }
  }

  lemma {:induction false} ItemsNonInterference(b: Blocklist, items: seq<Value>, others: seq<Value>)
    ensures ScrubItems(b, items) == ScrubItems(b, others) <==> SameItems(b, items, others)
  {
    if items != [] && others != [] {
      NonInterference(b, items[0], others[0]);
      ItemsNonInterference(b, items[1..], others[1..]);
      var p, q := ScrubItems(b, items), ScrubItems(b, others);
      assert p[1..] == ScrubItems(b, items[1..]) && q[1..] == ScrubItems(b, others[1..]);
      assert p == [p[0]] + p[1..] && q == [q[0]] + q[1..];
    }
  }

  /** Every blocked key, at any depth, holds the marker. */
  predicate Clean(b: Blocklist, v: Value) {
    match v
    case Dict(fields) => forall i :: 0 <= i < |fields| ==>
        if Blocked(b, fields[i].key) then fields[i].value == REDACTED else Clean(b, fields[i].value)
    case List(items) => forall i :: 0 <= i < |items| ==> Clean(b, items[i])
    case _ => true
  }

  lemma {:induction false} ScrubbedIsClean(b: Blocklist, v: Value)
    ensures Clean(b, Scrub(b, v))
  {
    match v {
      case Dict(fields) =>
        var scrubbed := ScrubFields(b, fields);
        forall i | 0 <= i < |scrubbed|
          ensures if Blocked(b, scrubbed[i].key) then scrubbed[i].value == REDACTED else Clean(b, scrubbed[i].value)
        {
          FieldsKept(b, fields);
          FieldAt(b, fields, i);
          ScrubbedIsClean(b, fields[i].value);
        }
      case List(items) =>
        var scrubbed := ScrubItems(b, items);
        forall i | 0 <= i < |scrubbed| ensures Clean(b, scrubbed[i]) {
          ItemsKept(b, items);
          ItemAt(b, items, i);
          ScrubbedIsClean(b, items[i]);
        }
      case _ =>
    }
  }

  lemma FieldsKept(b: Blocklist, fields: seq<Field>)
    ensures |ScrubFields(b, fields)| == |fields|
  {
    if fields != [] { FieldAt(b, fields, 0); }
  }

  lemma ItemsKept(b: Blocklist, items: seq<Value>)
    ensures |ScrubItems(b, items)| == |items|
  {
    if items != [] { ItemAt(b, items, 0); }
  }

  /** Scrubbing leaves a clean event, and only a clean event, as it is. */
  lemma {:induction false} UnchangedIffClean(b: Blocklist, v: Value)
    ensures Scrub(b, v) == v <==> Clean(b, v)
  {
    ScrubbedIsClean(b, v);
    if Clean(b, v) {
      match v {
        case Dict(fields) =>
          FieldsKept(b, fields);
          forall i | 0 <= i < |fields| ensures ScrubFields(b, fields)[i] == fields[i] {
            FieldAt(b, fields, i);
            UnchangedIffClean(b, fields[i].value);
          }
          assert ScrubFields(b, fields) == fields;
        case List(items) =>
          ItemsKept(b, items);
          forall i | 0 <= i < |items| ensures ScrubItems(b, items)[i] == items[i] {
            ItemAt(b, items, i);
            UnchangedIffClean(b, items[i]);
          }
          assert ScrubItems(b, items) == items;
        case _ =>
      }
    }
  }

  /** Scrubbing twice is scrubbing once. */
  lemma ScrubIsIdempotent(b: Blocklist, v: Value)
    ensures Scrub(b, Scrub(b, v)) == Scrub(b, v)
  {
    ScrubbedIsClean(b, v);
    UnchangedIffClean(b, Scrub(b, v));
  }

  /** Blocked are the admin keys and the user keys, in any case, and no others. */
  lemma CaseInsensitive(adminKeys: set<string>, lower: string -> string, key: string, other: string)
    requires lower(key) == lower(other)
    ensures var b := BlockedKeys(adminKeys, lower);
            && (Blocked(b, key) <==> Blocked(b, other))
            && (Blocked(b, key) <==>
                  UserKey(lower(key)) || exists admin :: admin in adminKeys && lower(admin) == lower(key))
  {
  }

  /** The keys of `_USER_PII_KEYS`. */
  predicate UserKey(key: string) {
    || key == "email" || key == "telegram_id" || key == "tg_id" || key == "init_data" || key == "tg_init_data"
    || key == "ip" || key == "client_ip" || key == "remote_addr" || key == "x-forwarded-for"
    || key == "user_agent" || key == "user-agent" || key == "access_token" || key == "refresh_token"
    || key == "jwt" || key == "jwt_secret" || key == "session_token" || key == "magic_link" || key == "magic_link_url"
    || key == "backup_code" || key == "totp_secret" || key == "authorization" || key == "cookie" || key == "set-cookie"
    || key == "avatar_seed" || key == "first_name" || key == "last_name" || key == "username"
  }
}
