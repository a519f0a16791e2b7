/** What nmcli prints about one network, and that the scan reads it back. */
module Nmcli {
  import opened Options
  import opened Protocol
  import opened Scan
  import Fields

  /** The words of the SECURITY field. */
  datatype Word = Wep | Wpa1 | Wpa2 | Wpa3 | Owe | Ieee8021X

  function Name(word: Word): string {
    match word
    case Wep => "WEP"
    case Wpa1 => "WPA1"
    case Wpa2 => "WPA2"
    case Wpa3 => "WPA3"
    case Owe => "OWE"
    case Ieee8021X => "802.1X"
  }

  function Spaced(words: seq<Word>): string {
    if words == [] then ""
    else if |words| == 1 then Name(words[0])
    else Name(words[0]) + " " + Spaced(words[1..])
  }

  function Decimal(n: nat): (text: string)
    ensures text != "" && forall c :: c in text ==> '0' <= c <= '9'
  {
    var digit := [('0' as int + n % 10) as char];
    if n < 10 then digit else Decimal(n / 10) + digit
  }

  function Printed(ssid: string, signal: nat, words: seq<Word>, inUse: bool): string {
    Fields.Join([ssid, Decimal(signal), Spaced(words), if inUse then "*" else " "])
  }

  /** What the words say about a network. */
  function SecurityOf(words: seq<Word>): Security {
    if words == [] then Open
    else if Ieee8021X in words then Enterprise
    else if Wep in words then Unsupported
    else if Wpa1 in words || Wpa2 in words || Wpa3 in words then WpaPersonal
    else Unsupported
  }

  function KeyManagementOf(words: seq<Word>): Option<string> {
    if SecurityOf(words) != WpaPersonal then None
    else if Wpa3 in words && Wpa2 !in words then Some("sae")
    else Some("wpa-psk")
  }

  // ---------------------------------------------------------------------------------------
  // The signal

  lemma {:induction false} DigitsOfDecimal(n: nat, rest: string)
    ensures Digits(Decimal(n) + rest, 0, false) == Digits(rest, n, true)
  {
    var digit := ('0' as int + n % 10) as char;
    if n < 10 {
      assert ([digit] + rest)[1..] == rest;
    } else {
      assert Decimal(n) + rest == Decimal(n / 10) + ([digit] + rest);
      DigitsOfDecimal(n / 10, [digit] + rest);
      assert ([digit] + rest)[1..] == rest;
    }
  }

  lemma {:induction false} DigitsAreRead(text: string, n: nat)
    requires text != "" && (forall c :: c in text ==> '0' <= c <= '9') && Digits(text, 0, false) == Some(n)
    ensures ParseInt(text) == Some(n)
  {
    assert text[0] in text && text[|text| - 1] in text;
    UnspacedIsStripped(text);
  }

  lemma {:induction false} DecimalIsRead(n: nat)
    ensures ParseInt(Decimal(n)) == Some(n)
  {
    DigitsOfDecimal(n, "");
    assert Decimal(n) + "" == Decimal(n);
    DigitsAreRead(Decimal(n), n);
  }

  // ---------------------------------------------------------------------------------------
  // The security

  lemma {:induction false} PartIs(text: string, part: string, i: nat, k: nat)
    requires OccursAt(text, part, i) && k < |part|
    ensures text[i + k] == part[k] && part[k] in part
  {
    assert text[i..i + |part|][k] == text[i + k];
  }

  lemma {:induction false} OccursLater(before: string, text: string, part: string)
    requires Contains(text, part)
    ensures Contains(before + text, part)
  {
    var i: nat :| i <= |text| && OccursAt(text, part, i);
    assert (before + text)[|before| + i..|before| + i + |part|] == text[i..i + |part|];
    assert OccursAt(before + text, part, |before| + i);
  }

  lemma {:induction false} OccursEarlier(text: string, after: string, part: string)
    requires Contains(text, part)
    ensures Contains(text + after, part)
  {
    var i: nat :| i <= |text| && OccursAt(text, part, i);
    assert (text + after)[i..i + |part|] == text[i..i + |part|];
    assert OccursAt(text + after, part, i);
  }

  lemma {:induction false} TailOccurs(before: string, text: string, part: string, i: nat)
    requires i >= |before| && OccursAt(before + text, part, i)
    ensures Contains(text, part)
  {
    var j := i - |before|;
    assert (before + text)[i..i + |part|] == text[j..j + |part|];
    assert OccursAt(text, part, j);
  }

  /** A part without spaces occurs in one of two spaced texts or in neither. */
  lemma {:induction false} ContainsEither(text: string, rest: string, part: string)
    requires part != "" && ' ' !in part
    ensures Contains(text + " " + rest, part) <==> Contains(text, part) || Contains(rest, part)
  {
    var both := text + " " + rest;
    if Contains(both, part) {
      var i: nat :| i <= |both| && OccursAt(both, part, i);
      if i + |part| <= |text| {
        assert both[i..i + |part|] == text[i..i + |part|];
        assert OccursAt(text, part, i);
      } else if i > |text| {
        TailOccurs(text + " ", rest, part, i);
      } else {
        PartIs(both, part, i, |text| - i);
      }
    }
    if Contains(text, part) {
      OccursEarlier(text, " " + rest, part);
      assert both == text + (" " + rest);
    }
    if Contains(rest, part) {
      OccursLater(text + " ", rest, part);
    }
  }

  lemma {:induction false} SomeWordContains(words: seq<Word>, part: string)
    requires part != "" && ' ' !in part
    ensures Contains(Spaced(words), part) <==> exists word :: word in words && Contains(Name(word), part)
  {
    if |words| == 1 {
      assert words == [words[0]];
    } else if |words| > 1 {
      ContainsEither(Name(words[0]), Spaced(words[1..]), part);
      SomeWordContains(words[1..], part);
      assert words == [words[0]] + words[1..];
    }
  }

  lemma {:induction false} FoundAt(text: string, part: string, i: nat)
    requires OccursAt(text, part, i)
    ensures Contains(text, part)
  {
  }

  lemma {:induction false} Foreign(text: string, part: string, c: char)
    requires c in part
    ensures Contains(text, part) ==> c in text
  {
    if Contains(text, part) {
      var k :| 0 <= k < |part| && part[k] == c;
      var i: nat :| i <= |text| && OccursAt(text, part, i);
      PartIs(text, part, i, k);
    }
  }

  lemma {:induction false} WordIsEnterprise(word: Word)
    ensures Contains(Name(word), "802.1X") <==> word == Ieee8021X
    ensures !Contains(Name(word), "EAP")
  {
    if word == Ieee8021X {
      FoundAt("802.1X", "802.1X", 0);
    } else {
      Foreign(Name(word), "802.1X", '8');
    }
    Foreign(Name(word), "EAP", if word == Wep || word == Owe then 'A' else 'E');
  }

  lemma {:induction false} WordIsWep(word: Word)
    ensures Contains(Name(word), "WEP") <==> word == Wep
  {
    if word == Wep {
      FoundAt("WEP", "WEP", 0);
    } else {
      Foreign(Name(word), "WEP", if word == Owe then 'P' else 'E');
    }
  }

  lemma {:induction false} WordIsWpa(word: Word)
    ensures Contains(Name(word), "WPA") <==> word == Wpa1 || word == Wpa2 || word == Wpa3
  {
    if word == Wpa1 || word == Wpa2 || word == Wpa3 {
      FoundAt(Name(word), "WPA", 0);
    } else {
      Foreign(Name(word), "WPA", 'A');
    }
  }

  lemma {:induction false} WordIsWpa2(word: Word)
    ensures Contains(Name(word), "WPA2") <==> word == Wpa2
  {
    if word == Wpa2 {
      FoundAt("WPA2", "WPA2", 0);
    } else {
      Foreign(Name(word), "WPA2", if word == Ieee8021X then 'W' else '2');
    }
  }

  lemma {:induction false} WordIsWpa3(word: Word)
    ensures Contains(Name(word), "WPA3") <==> word == Wpa3
  {
    if word == Wpa3 {
      FoundAt("WPA3", "WPA3", 0);
    } else {
      Foreign(Name(word), "WPA3", '3');
    }
  }

  lemma {:induction false} AnyIs(words: seq<Word>, part: string, kinds: set<Word>)
    requires part != "" && ' ' !in part
    requires forall word :: Contains(Name(word), part) <==> word in kinds
    ensures Contains(Spaced(words), part) <==> exists word :: word in words && word in kinds
  {
    SomeWordContains(words, part);
  }

  lemma {:induction false} EnterpriseIsRead(words: seq<Word>)
    ensures Contains(Spaced(words), "802.1X") <==> Ieee8021X in words
    ensures !Contains(Spaced(words), "EAP")
  {
    forall word {
      WordIsEnterprise(word);
    }
    AnyIs(words, "802.1X", {Ieee8021X});
    AnyIs(words, "EAP", {});
  }

  lemma {:induction false} WepIsRead(words: seq<Word>)
    ensures Contains(Spaced(words), "WEP") <==> Wep in words
  {
    forall word {
      WordIsWep(word);
    }
    AnyIs(words, "WEP", {Wep});
  }

  lemma {:induction false} WpaIsRead(words: seq<Word>)
    ensures Contains(Spaced(words), "WPA") <==> Wpa1 in words || Wpa2 in words || Wpa3 in words
  {
    forall word {
      WordIsWpa(word);
    }
    AnyIs(words, "WPA", {Wpa1, Wpa2, Wpa3});
  }

  lemma {:induction false} Wpa2IsRead(words: seq<Word>)
    ensures Contains(Spaced(words), "WPA2") <==> Wpa2 in words
  {
    forall word {
      WordIsWpa2(word);
    }
    AnyIs(words, "WPA2", {Wpa2});
  }

  lemma {:induction false} Wpa3IsRead(words: seq<Word>)
    ensures Contains(Spaced(words), "WPA3") <==> Wpa3 in words
  {
    forall word {
      WordIsWpa3(word);
    }
    AnyIs(words, "WPA3", {Wpa3});
  }

  predicate Normal(text: string) {
    && (forall c :: c in text ==> !('a' <= c <= 'z')) && text != "" && text != "--"
    && !Whitespace(text[0]) && !Whitespace(text[|text| - 1])
  }

  lemma {:induction false} SpacedIsNormal(words: seq<Word>)
    requires words != []
    ensures Normal(Spaced(words))
  {
    var name := Name(words[0]);
    assert Normal(name);
    if |words| > 1 {
      var rest := Spaced(words[1..]);
      SpacedIsNormal(words[1..]);
      var text := name + " " + rest;
      assert text[|text| - 1] == rest[|rest| - 1] && text[0] == name[0];
    }
  }

  lemma {:induction false} NormalIsUnchanged(text: string)
    requires Normal(text)
    ensures Strip(Upper(text)) == text
  {
    forall i | 0 <= i < |text|
      ensures Upper(text)[i] == text[i]
    {
      assert text[i] in text;
    }
    assert Upper(text) == text;
    UnspacedIsStripped(text);
  }

  lemma {:induction false} SecurityIsRead(words: seq<Word>)
    ensures ClassifySecurity(Spaced(words)) == (SecurityOf(words), KeyManagementOf(words))
  {
    if words != [] {
      SpacedIsNormal(words);
      NormalIsUnchanged(Spaced(words));
      EnterpriseIsRead(words);
      WepIsRead(words);
      WpaIsRead(words);
      Wpa2IsRead(words);
      Wpa3IsRead(words);
    }
  }

  /** Every network that nmcli can print is read as what it is. */
  lemma {:induction false} PrintedIsRead(ssid: string, signal: nat, words: seq<Word>, inUse: bool)
    requires ValidSsid(ssid) && signal <= 100
    ensures ParseAccessPoint(Printed(ssid, signal, words, inUse))
         == Some(AccessPoint(ssid, signal, SecurityOf(words), inUse, KeyManagementOf(words)))
  {
    Fields.SplitUndoesJoin([ssid, Decimal(signal), Spaced(words), if inUse then "*" else " "]);
    DecimalIsRead(signal);
    SecurityIsRead(words);
  }
}
