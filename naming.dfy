/**
  The two naming rules: a participant identity is `<role>_<uuid>` and an
  interview room is `interview_<type>_<millis>`. Splitting at the last
  underscore is their inverse, which shows when two names can coincide.
*/
module Naming {
  import opened Outcomes
  import Decimal

  /** Splits `s` at the last occurrence of `sep`; `None` when `sep` does not occur. */
  function SplitAtLast(s: string, sep: char): (r: Option<(string, string)>)
    ensures r.None? <==> sep !in s
    ensures r.Some? ==> s == r.value.0 + [sep] + r.value.1 && sep !in r.value.1
    decreases |s|
  {
    if s == [] then None
    else
      var front, last := s[..|s| - 1], s[|s| - 1];
      assert s == front + [last];
      if last == sep then Some((front, []))
      else match SplitAtLast(front, sep)
        case None => None
        case Some((before, after)) => Some((before, after + [last]))
  }

  /** A string splits into "front, separator, back without separator" in one way only. */
  lemma LastSeparatorUnique(a: string, b: string, a': string, b': string, sep: char)
    requires a + [sep] + b == a' + [sep] + b'
    requires sep !in b && sep !in b'
    ensures a == a' && b == b'
  {
    var s := a + [sep] + b;
    assert s == a' + [sep] + b';
    assert forall j :: |a| < j < |s| ==> s[j] == b[j - |a| - 1];
    assert forall j :: |a'| < j < |s| ==> s[j] == b'[j - |a'| - 1];
    assert s[|a|] == sep && s[|a'|] == sep;
    assert |a| == |a'|;
    assert a == s[..|a|] == a';
    assert b == s[|a| + 1..] == b';
  }

  /** Splitting a joined name at its last separator gives back its two parts. */
  lemma SplitJoined(a: string, b: string, sep: char)
    requires sep !in b
    ensures SplitAtLast(a + [sep] + b, sep) == Some((a, b))
  {
    var r := SplitAtLast(a + [sep] + b, sep);
    LastSeparatorUnique(a, b, r.value.0, r.value.1, sep);
  }

  /** `${participantType}_${uuid}`: the role text, an underscore, then the uuid. */
  function Identity(roleText: string, uuid: string): (id: string)
    ensures |id| == |roleText| + 1 + |uuid|
    ensures id[..|roleText|] == roleText && id[|roleText|] == '_' && id[|roleText| + 1..] == uuid
  {
    roleText + "_" + uuid
  }

  /** `interview_${interviewType}_${Date.now()}`: a fixed prefix, the type text, an underscore, the clock text. */
  function RoomName(typeText: string, nowMillis: int): (name: string)
    ensures |name| == 11 + |typeText| + |Decimal.IntToDecimal(nowMillis)|
    ensures "interview_" <= name && name[10..10 + |typeText|] == typeText && name[10 + |typeText|] == '_'
    ensures name[11 + |typeText|..] == Decimal.IntToDecimal(nowMillis)
  {
    "interview_" + typeText + "_" + Decimal.IntToDecimal(nowMillis)
  }

  /** An identity whose uuid has no underscore splits back into its role text and uuid. */
  lemma IdentitySplits(roleText: string, uuid: string)
    requires '_' !in uuid
    ensures SplitAtLast(Identity(roleText, uuid), '_') == Some((roleText, uuid))
  {
    SplitJoined(roleText, uuid, '_');
  }

  /** Every room name splits back into its "interview_"-prefixed type text and clock reading. */
  lemma RoomNameSplits(typeText: string, nowMillis: int)
    ensures SplitAtLast(RoomName(typeText, nowMillis), '_')
      == Some(("interview_" + typeText, Decimal.IntToDecimal(nowMillis)))
  {
    var stamp := Decimal.IntToDecimal(nowMillis);
    assert '_' !in stamp;
    SplitJoined("interview_" + typeText, stamp, '_');
  }

  /**
    Identities built from uuids without underscores coincide exactly when both
    the role text and the uuid coincide: a fresh uuid gives a fresh identity.
  */
  lemma IdentitiesCoincide(role1: string, uuid1: string, role2: string, uuid2: string)
    requires '_' !in uuid1 && '_' !in uuid2
    ensures Identity(role1, uuid1) == Identity(role2, uuid2) <==> role1 == role2 && uuid1 == uuid2
  {
    if Identity(role1, uuid1) == Identity(role2, uuid2) {
      LastSeparatorUnique(role1, uuid1, role2, uuid2, '_');
    }
  }

  /**
    Two room names coincide exactly when the interview type texts and the
    millisecond clock readings coincide: the only collisions are two
    creations of the same type within one millisecond.
  */
  lemma RoomNamesCoincide(type1: string, millis1: int, type2: string, millis2: int)
    ensures RoomName(type1, millis1) == RoomName(type2, millis2) <==> type1 == type2 && millis1 == millis2
  {
    if RoomName(type1, millis1) == RoomName(type2, millis2) {
      RoomNameSplits(type1, millis1);
      RoomNameSplits(type2, millis2);
      var p1, p2 := "interview_" + type1, "interview_" + type2;
      assert p1 == p2;
      assert type1 == p1[10..] == p2[10..] == type2;
      Decimal.IntToDecimalInjective(millis1, millis2);
    }
  }

  /** An example: type "university_admissions" at 1700000000000 ms. */
  lemma RoomNameExample()
    ensures RoomName("university_admissions", 1700000000000) == "interview_" + "university_admissions" + "_" + "1700000000000"
  {
    ClockTextExample();
  }

  lemma ClockTextExample()
    ensures Decimal.IntToDecimal(1700000000000) == "1700000000000"
  {
    assert Decimal.NatToDecimal(1) == "1";
    assert Decimal.NatToDecimal(17) == "17";
    assert Decimal.NatToDecimal(170) == "170";
    assert Decimal.NatToDecimal(1700) == "1700";
    assert Decimal.NatToDecimal(17000) == "17000";
    assert Decimal.NatToDecimal(170000) == "170000";
    assert Decimal.NatToDecimal(1700000) == "1700000";
    assert Decimal.NatToDecimal(17000000) == "17000000";
    assert Decimal.NatToDecimal(170000000) == "170000000";
    assert Decimal.NatToDecimal(1700000000) == "1700000000";
    assert Decimal.NatToDecimal(17000000000) == "17000000000";
    assert Decimal.NatToDecimal(170000000000) == "170000000000";
  }
}
