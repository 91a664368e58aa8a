/**
 * UUIDs as used for lead and user identifiers and for resume object names.
 * A UUID is its 128 bits written as 32 lower-case hexadecimal digits; `str(uuid)`
 * is the canonical 8-4-4-4-12 text with dashes.
 */
module Uuids {

  predicate IsHexDigit(c: char) {
    '0' <= c <= '9' || 'a' <= c <= 'f'
  }

  type Uuid = s: seq<char> | |s| == 32 && forall i | 0 <= i < |s| :: IsHexDigit(s[i])
    witness "00000000000000000000000000000000"

  /** `str(uuid)`: the canonical text form, groups of 8, 4, 4, 4 and 12 digits. */
  function Text(u: Uuid): (t: string)
    ensures |t| == 36
    ensures t[8] == '-' && t[13] == '-' && t[18] == '-' && t[23] == '-'
    ensures forall i | 0 <= i < |t| :: t[i] != '.'
  {
    u[..8] + "-" + u[8..12] + "-" + u[12..16] + "-" + u[16..20] + "-" + u[20..]
  }

  /** Reads the 32 digits back from a canonical text (the dashes dropped). */
  function Parse(t: string): string
    requires |t| == 36
  {
    t[..8] + t[9..13] + t[14..18] + t[19..23] + t[24..]
  }

  /** The text form loses nothing: parsing it gives the UUID back. */
  lemma ParseText(u: Uuid)
    ensures Parse(Text(u)) == u
  {
    var t := Text(u);
    assert t[..8] == u[..8];
    assert t[9..13] == u[8..12];
    assert t[14..18] == u[12..16];
    assert t[19..23] == u[16..20];
    assert t[24..] == u[20..];
    assert u == u[..8] + u[8..12] + u[12..16] + u[16..20] + u[20..];
  }

  /** Distinct UUIDs have distinct texts, so `str(lead.id)` identifies the lead. */
  lemma TextInjective(u: Uuid, v: Uuid)
    ensures Text(u) == Text(v) ==> u == v
  {
    ParseText(u);
    ParseText(v);
  }
}
