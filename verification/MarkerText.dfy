/** A marker is the sender's id in decimal, read into a buffer of MAX_MARKER_SIZE characters of
    which the last is kept for the terminator. */
module MarkerText {

  const MAX_MARKER_SIZE := 3

  function Decimal(id: nat): (digits: seq<nat>)
    ensures digits != [] && forall i :: 0 <= i < |digits| ==> digits[i] < 10
  {
    if id < 10 then [id] else Decimal(id / 10) + [id % 10]
  }

  function Atoi(digits: seq<nat>): nat {
    if digits == [] then 0 else 10 * Atoi(digits[..|digits| - 1]) + digits[|digits| - 1]
  }

  function Read(text: seq<nat>): seq<nat> {
    if |text| <= MAX_MARKER_SIZE - 1 then text else text[..MAX_MARKER_SIZE - 1]
  }

  lemma {:induction false} AtoiOfDecimal(id: nat)
    ensures Atoi(Decimal(id)) == id
  {
    if id >= 10 { AtoiOfDecimal(id / 10); }
  }

  lemma TwoDigits(digits: seq<nat>)
    requires |digits| <= 2 && forall i :: 0 <= i < |digits| ==> digits[i] < 10
    ensures Atoi(digits) < 100
  {
    if digits != [] {
      var rest := digits[..|digits| - 1];
      assert |rest| == 1 ==> rest[..0] == [] && Atoi(rest) == rest[0];
    }
  }

  /** The id is received as it was sent exactly if it has at most two digits. */
  lemma {:induction false} MarkerArrivesWhole(id: nat)
    ensures Atoi(Read(Decimal(id))) == id <==> id < 100
  {
    AtoiOfDecimal(id);
    TwoDigits(Read(Decimal(id)));
    if id < 100 && id >= 10 {
      assert Decimal(id) == Decimal(id / 10) + [id % 10];
    }
  }
}
