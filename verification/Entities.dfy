/** The stored entry, and the two conversions that it passes on its way to the database and back. */
module Entities {
  import opened Basics
  import opened ByteStrings

  const UNSPECIFIED := 0
  const LOGIN := 1
  const NOTE := 3

  // Texts are byte strings. A nil map is told from an empty one.
  datatype Envelope = Envelope(
    id: Bytes,
    name: Bytes,
    kind: int,
    meta: Option<map<Bytes, Bytes>>,
    payload: Bytes,
    createdAt: Time,
    updatedAt: Time)

  // An empty map is not written out, by JSON's "omitempty" and by protobuf, and reads back as nil.
  function DropEmpty(meta: Option<map<Bytes, Bytes>>): Option<map<Bytes, Bytes>> {
    if meta == Some(map[]) then None else meta
  }

  /** Writing an envelope as JSON and reading it back. */
  function Persisted(e: Envelope): Envelope {
    e.(meta := DropEmpty(e.meta))
  }

  function WholeSeconds(t: Time): Time {
    (t / SECOND) * SECOND
  }

  /** Sending an envelope over the wire: instants lose their fraction of a second. */
  function Wired(e: Envelope): Envelope {
    e.(meta := DropEmpty(e.meta), createdAt := WholeSeconds(e.createdAt), updatedAt := WholeSeconds(e.updatedAt))
  }

  /** What arrives after sending: every field but the two instants as it was, an empty map gone, and of each instant
      the last whole second that is not after it. */
  lemma ArrivesAs(e: Envelope)
    ensures var r := Wired(e);
            && r.id == e.id && r.name == e.name && r.kind == e.kind && r.payload == e.payload
            && r.meta == (if e.meta == Some(map[]) then None else e.meta)
            && r.createdAt % 1_000_000_000 == 0 && 0 <= e.createdAt - r.createdAt < 1_000_000_000
            && r.updatedAt % 1_000_000_000 == 0 && 0 <= e.updatedAt - r.updatedAt < 1_000_000_000
    ensures var p := Persisted(e);
            p == e.(meta := if e.meta == Some(map[]) then None else e.meta)
  {
    Seconds(e.createdAt);
    Seconds(e.updatedAt);
  }

  lemma Seconds(t: Time)
    ensures WholeSeconds(t) % 1_000_000_000 == 0 && 0 <= t - WholeSeconds(t) < 1_000_000_000
  {
  }
}
