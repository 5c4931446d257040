/** Mapping the items of a Bitwarden export to envelopes, and the key by which duplicates are recognised. */
module Bitwarden {
  import opened Basics
  import opened ByteStrings
  import opened Entities

  const BW_LOGIN := 1
  const BW_SECURE_NOTE := 2

  datatype Login = Login(uris: seq<Bytes>, username: Bytes, password: Bytes)
  datatype Item = Item(kind: int, name: Bytes, notes: Bytes, login: Option<Login>)

  // The library functions used: trimming white space, the scheme and host of a URL, and JSON encoding.
  datatype Lib = Lib(
    trim: Bytes -> Bytes,
    schemeAndHost: Bytes -> Option<Bytes>,
    marshalLogin: (Bytes, Bytes, Bytes, Bytes) -> Option<Bytes>,
    marshalNote: (Bytes, Bytes) -> Option<Bytes>)

  const SITE: Bytes := [115, 105, 116, 101]                                // "site"
  const USERNAME: Bytes := [117, 115, 101, 114, 110, 97, 109, 101]         // "username"
  const LOGIN_TAG: Bytes := [108, 111, 103, 105, 110, 58]                  // "login:"
  const OPEN_PAREN: Bytes := [32, 40]                                      // " ("
  const CLOSE_PAREN: Bytes := [41]                                         // ")"

  predicate IsImportable(lib: Lib, item: Item) {
    lib.trim(item.name) != [] && (item.kind == BW_LOGIN || item.kind == BW_SECURE_NOTE)
  }

  function NormalizeUri(lib: Lib, raw: Bytes): Bytes {
    if raw == [] then []
    else match lib.schemeAndHost(raw)
         case None => raw
         case Some(site) => site
  }

  function SiteOf(lib: Lib, item: Item): Bytes {
    if item.login.Some? && item.login.value.uris != [] then NormalizeUri(lib, item.login.value.uris[0]) else []
  }

  function UsernameOf(item: Item): Bytes {
    if item.login.Some? then item.login.value.username else []
  }

  function PasswordOf(item: Item): Bytes {
    if item.login.Some? then item.login.value.password else []
  }

  function MapLogin(lib: Lib, item: Item): Option<Envelope> {
    var username, site := UsernameOf(item), SiteOf(lib, item);
    var name := if username != [] then item.name + OPEN_PAREN + username + CLOSE_PAREN else item.name;
    match lib.marshalLogin(site, username, PasswordOf(item), item.notes)
    case None => None
    case Some(payload) => Some(Envelope([], name, LOGIN, Some(map[USERNAME := username, SITE := site]), payload, 0, 0))
  }

  function MapNote(lib: Lib, item: Item): Option<Envelope> {
    match lib.marshalNote(item.name, item.notes)
    case None => None
    case Some(payload) => Some(Envelope([], item.name, NOTE, None, payload, 0, 0))
  }

  /** The envelope of an item that can be imported, unless its encoding fails. */
  function MapItem(lib: Lib, item: Item): Option<Envelope> {
    if !IsImportable(lib, item) then None
    else if item.kind == BW_LOGIN then MapLogin(lib, item)
    else MapNote(lib, item)
  }

  // Decoders that invert the two encodings: site, username, password and notes; name and content.
  ghost predicate Decodes(lib: Lib, decodeLogin: Bytes -> (Bytes, Bytes, Bytes, Bytes), decodeNote: Bytes -> (Bytes, Bytes)) {
    && (forall s, u, p, n :: lib.marshalLogin(s, u, p, n).Some? ==> decodeLogin(lib.marshalLogin(s, u, p, n).value) == (s, u, p, n))
    && (forall n, c :: lib.marshalNote(n, c).Some? ==> decodeNote(lib.marshalNote(n, c).value) == (n, c))
  }

  /** What an envelope must say for an item, read from the fields of the item: a login decodes to its first URI cut to
      scheme and host, its username, its password and its notes, under the name "name (username)"; a note to its name
      and notes. */
  ghost predicate Carries(lib: Lib, decodeLogin: Bytes -> (Bytes, Bytes, Bytes, Bytes), decodeNote: Bytes -> (Bytes, Bytes),
                          item: Item, e: Envelope) {
    && (item.kind == 1 || item.kind == 2)
    && (item.kind == 2 ==>
          e.kind == 3 && e.name == item.name && e.meta == None && decodeNote(e.payload) == (item.name, item.notes))
    && (item.kind == 1 ==>
          && e.kind == 1 && e.meta.Some?
          && var siteKey, userKey: Bytes := [115, 105, 116, 101], [117, 115, 101, 114, 110, 97, 109, 101];   // "site", "username"
             && e.meta.value.Keys == {userKey, siteKey}
             && var (site, username, password, notes) := decodeLogin(e.payload);
                && notes == item.notes
                && e.meta.value[userKey] == username && e.meta.value[siteKey] == site
                && e.name == (if username == [] then item.name else item.name + [32, 40] + username + [41])
                && (item.login.None? ==> site == username == password == [])
                && (item.login.Some? ==> username == item.login.value.username && password == item.login.value.password)
                && (item.login.Some? && item.login.value.uris == [] ==> site == [])
                && (item.login.Some? && item.login.value.uris != [] ==>
                      var uri := item.login.value.uris[0];
                      site == if uri == [] || lib.schemeAndHost(uri).None? then uri else lib.schemeAndHost(uri).value))
  }

  /** Mapping says what it must, and leaves the id and the instants to the store. */
  lemma MappedContents(lib: Lib, item: Item, decodeLogin: Bytes -> (Bytes, Bytes, Bytes, Bytes), decodeNote: Bytes -> (Bytes, Bytes))
    requires Decodes(lib, decodeLogin, decodeNote) && MapItem(lib, item).Some?
    ensures var e := MapItem(lib, item).value;
            && Carries(lib, decodeLogin, decodeNote, item, e)
            && e.id == [] && e.createdAt == e.updatedAt == 0
  {
    assert |USERNAME| != |SITE|;
  }

  // Whether the encoder takes the fields of the item.
  predicate Encodes(lib: Lib, item: Item) {
    if item.kind == 1 then lib.marshalLogin(SiteOf(lib, item), UsernameOf(item), PasswordOf(item), item.notes).Some?
    else lib.marshalNote(item.name, item.notes).Some?
  }

  /** Which items map, read from their fields: named logins and notes whose encoding succeeds. */
  lemma MapsExactly(lib: Lib, item: Item)
    ensures MapItem(lib, item).Some? <==> lib.trim(item.name) != [] && (item.kind == 1 || item.kind == 2) && Encodes(lib, item)
  {
  }

  // Looking up a missing key of a map gives the empty text.
  function Lookup(m: map<Bytes, Bytes>, k: Bytes): Bytes {
    if k in m then m[k] else []
  }

  function DedupKey(e: Envelope): Bytes {
    if e.kind == LOGIN && e.meta.Some? then
      LOGIN_TAG + Lookup(e.meta.value, SITE) + [COLON] + Lookup(e.meta.value, USERNAME)
    else
      IndexKey(e.kind, e.name)
  }

  /** What a client lists of an envelope that it has added: encrypted, sent, stamped, stored and sent back. */
  function AsStored(e: Envelope, cipher: Bytes, id: Bytes, now: Time): Envelope {
    Persisted(Wired(e.(payload := cipher)).(id := id, createdAt := now, updatedAt := now))
  }

  function AsListed(e: Envelope, cipher: Bytes, id: Bytes, now: Time): Envelope {
    Wired(AsStored(e, cipher, id, now))
  }

  /** The duplicate key survives the way to the server and back for every envelope but a login with an empty,
      non-nil metadata map. */
  lemma KeySurvives(e: Envelope, cipher: Bytes, id: Bytes, now: Time)
    ensures DedupKey(AsListed(e, cipher, id, now)) == DedupKey(e)
            <==> !(e.kind == LOGIN && e.meta == Some(map[]))
  {
    if e.kind == LOGIN && e.meta == Some(map[]) {
      assert Decimal(1) == [49];
      assert DedupKey(e)[0] == 108;
      assert DedupKey(AsListed(e, cipher, id, now)) == IndexKey(LOGIN, e.name);
      assert IndexKey(LOGIN, e.name)[0] == 49;
    }
  }

  /** Every mapped envelope keeps its key. */
  lemma MappedKeySurvives(lib: Lib, item: Item, cipher: Bytes, id: Bytes, now: Time)
    requires MapItem(lib, item).Some?
    ensures DedupKey(AsListed(MapItem(lib, item).value, cipher, id, now)) == DedupKey(MapItem(lib, item).value)
  {
    var e := MapItem(lib, item).value;
    KeySurvives(e, cipher, id, now);
    if e.kind == LOGIN {
      assert USERNAME in e.meta.value;
    }
  }

  /** A login and a note never share a key, and two logins share one exactly when the texts "site:username" agree. */
  lemma KeysOfKinds(lib: Lib, a: Item, b: Item)
    requires MapItem(lib, a).Some? && MapItem(lib, b).Some?
    ensures DedupKey(MapItem(lib, a).value) == DedupKey(MapItem(lib, b).value) ==> a.kind == b.kind
    ensures a.kind == b.kind == BW_LOGIN ==>
              (DedupKey(MapItem(lib, a).value) == DedupKey(MapItem(lib, b).value) <==>
               SiteOf(lib, a) + [COLON] + UsernameOf(a) == SiteOf(lib, b) + [COLON] + UsernameOf(b))
    ensures a.kind == b.kind == BW_SECURE_NOTE ==>
              (DedupKey(MapItem(lib, a).value) == DedupKey(MapItem(lib, b).value) <==> a.name == b.name)
  {
    var e, f := MapItem(lib, a).value, MapItem(lib, b).value;
    assert Decimal(3) == [51];
    KeyForm(lib, a);
    KeyForm(lib, b);
    if a.kind == b.kind == BW_LOGIN {
      assert DedupKey(e)[6..] == SiteOf(lib, a) + [COLON] + UsernameOf(a);
      assert DedupKey(f)[6..] == SiteOf(lib, b) + [COLON] + UsernameOf(b);
    }
    if a.kind == b.kind == BW_SECURE_NOTE {
      assert DedupKey(e)[2..] == a.name && DedupKey(f)[2..] == b.name;
    }
  }

  /** "site:username" does not tell site from username: two pairs share the text exactly when they are equal or the
      longer site continues the shorter one by a colon and the start of the other username. */
  lemma SharedLoginTexts(site: Bytes, username: Bytes, site': Bytes, username': Bytes)
    requires |site| <= |site'|
    ensures site + [COLON] + username == site' + [COLON] + username' <==>
            || (site == site' && username == username')
            || (|site| < |site'| && site' == site + [COLON] + site'[|site| + 1..]
                && username == site'[|site| + 1..] + [COLON] + username')
  {
    var n, text, text' := |site|, site + [COLON] + username, site' + [COLON] + username';
    assert text[..n] == site && text[n] == COLON && text[n + 1..] == username;
    if n == |site'| {
      assert text'[..n] == site' && text'[n + 1..] == username';
    } else {
      var middle := site'[n + 1..];
      assert site' == site'[..n] + [site'[n]] + middle;
      assert text' == site'[..n] + [site'[n]] + (middle + [COLON] + username');
      assert text'[..n] == site'[..n] && text'[n] == site'[n] && text'[n + 1..] == middle + [COLON] + username';
    }
    assert text == text[..n] + [text[n]] + text[n + 1..];
    assert text' == text'[..n] + [text'[n]] + text'[n + 1..];
  }

  /** So logins whose usernames hold no colon share a key only when site and username agree. */
  lemma PlainUsernamesAreTold(lib: Lib, a: Item, b: Item)
    requires MapItem(lib, a).Some? && MapItem(lib, b).Some? && a.kind == b.kind == BW_LOGIN
    requires COLON !in UsernameOf(a) && COLON !in UsernameOf(b)
    ensures DedupKey(MapItem(lib, a).value) == DedupKey(MapItem(lib, b).value)
            <==> SiteOf(lib, a) == SiteOf(lib, b) && UsernameOf(a) == UsernameOf(b)
  {
    hide MapItem, DedupKey, SiteOf, UsernameOf;
    KeysOfKinds(lib, a, b);
    var s, u, s', u' := SiteOf(lib, a), UsernameOf(a), SiteOf(lib, b), UsernameOf(b);
    if |s| <= |s'| {
      SharedLoginTexts(s, u, s', u');
      assert |s| < |s'| ==> COLON in s'[|s| + 1..] + [COLON] + u';
    } else {
      SharedLoginTexts(s', u', s, u);
      assert COLON in s[|s'| + 1..] + [COLON] + u;
    }
  }

  // A login at the given address; the library functions leave texts as they are and never fail.
  function LoginAt(uri: Bytes, username: Bytes): Item {
    Item(BW_LOGIN, [120], [], Some(Login([uri], username, [])))
  }

  function PlainLib(): Lib {
    Lib(t => t, t => None, (s, u, p, n) => Some([]), (n, c) => Some([]))
  }

  /** A username with a colon can make two different logins count as duplicates: "a:1" with "u", and "a" with "1:u". */
  lemma ColonsConfuseLogins()
    ensures var a, b := MapItem(PlainLib(), LoginAt([97, COLON, 49], [117])), MapItem(PlainLib(), LoginAt([97], [49, COLON, 117]));
            && a.Some? && b.Some? && a.value.meta != b.value.meta && a.value.name != b.value.name
            && DedupKey(a.value) == DedupKey(b.value)
  {
    var lib, x, y := PlainLib(), LoginAt([97, COLON, 49], [117]), LoginAt([97], [49, COLON, 117]);
    assert MapItem(lib, x).Some? && MapItem(lib, y).Some?;
    KeysOfKinds(lib, x, y);
    assert SiteOf(lib, x) + [COLON] + UsernameOf(x) == [97, COLON, 49, COLON, 117] == SiteOf(lib, y) + [COLON] + UsernameOf(y);
    var a, b := MapItem(lib, x).value, MapItem(lib, y).value;
    assert |USERNAME| != |SITE|;
    assert a.meta.value[USERNAME] == [117] && b.meta.value[USERNAME] == [49, COLON, 117];
    assert |a.name| == 5 && |b.name| == 7;
  }

  /** Against any entry on the server, whatever its type: a note is a duplicate of the notes of its name and of no
      other entry, and a login of the logins with its text "site:username" and of no other entry. */
  lemma DuplicatesAmongEntries(lib: Lib, item: Item, e: Envelope)
    requires MapItem(lib, item).Some?
    ensures item.kind == 2 ==>
              (DedupKey(e) == DedupKey(MapItem(lib, item).value) <==> e.kind == 3 && e.name == item.name)
    ensures item.kind == 1 ==>
              (DedupKey(e) == DedupKey(MapItem(lib, item).value) <==>
               && e.kind == 1 && e.meta.Some?
               && Lookup(e.meta.value, SITE) + [COLON] + Lookup(e.meta.value, USERNAME) == SiteOf(lib, item) + [COLON] + UsernameOf(item))
  {
    KeyForm(lib, item);
    KeyOfEntry(e);
    var key := DedupKey(MapItem(lib, item).value);
    if item.kind == 2 {
      assert key[2..] == item.name;
      assert Decimal(3) == [51] && key == IndexKey(3, item.name);
      if !(e.kind == LOGIN && e.meta.Some?) && DedupKey(e) == key {
        IndexKeyInjective(e.kind, e.name, 3, item.name);
      }
    } else {
      assert key[6..] == SiteOf(lib, item) + [COLON] + UsernameOf(item);
      if e.kind == LOGIN && e.meta.Some? {
        assert DedupKey(e)[6..] == Lookup(e.meta.value, SITE) + [COLON] + Lookup(e.meta.value, USERNAME);
      }
    }
  }

  lemma KeyOfEntry(e: Envelope)
    ensures e.kind == LOGIN && e.meta.Some? ==>
              DedupKey(e) == [108, 111, 103, 105, 110, 58] + (Lookup(e.meta.value, SITE) + [COLON] + Lookup(e.meta.value, USERNAME))
              && DedupKey(e)[0] == 108
    ensures !(e.kind == LOGIN && e.meta.Some?) ==> DedupKey(e) == IndexKey(e.kind, e.name) && DedupKey(e)[0] < 100
  {
    DigitsAreDigits(if e.kind < 0 then -e.kind else e.kind);
  }

  lemma KeyForm(lib: Lib, item: Item)
    requires MapItem(lib, item).Some?
    ensures item.kind == BW_LOGIN || item.kind == BW_SECURE_NOTE
    ensures item.kind == BW_LOGIN ==>
              DedupKey(MapItem(lib, item).value) == LOGIN_TAG + (SiteOf(lib, item) + [COLON] + UsernameOf(item))
              && DedupKey(MapItem(lib, item).value)[0] == 108
    ensures item.kind == BW_SECURE_NOTE ==>
              DedupKey(MapItem(lib, item).value) == [51, COLON] + item.name
              && DedupKey(MapItem(lib, item).value)[0] == 51
  {
    assert Decimal(3) == [51];
    assert USERNAME != SITE by { assert |USERNAME| != |SITE|; }
    if item.kind == BW_SECURE_NOTE {
      assert [51] + [COLON] == [51, COLON];
    }
  }
}
