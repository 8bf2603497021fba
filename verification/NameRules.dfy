/** Rules for names that do what the proofs about names suppose, so that those are about something. */
module NameRules {
  import opened Wrappers
  import opened Bytes
  import opened Text
  import opened ConflictNames

  /** Non-empty, at most 240 bytes, without slashes. */
  predicate PlainName(name: Bytes) {
    name != [] && |name| <= MaxLeafBytes && '/' !in name
  }

  predicate DigitsAt(text: Bytes, from: nat, to: nat) {
    to <= |text| && forall k :: from <= k < to ==> IsDigit(text[k])
  }

  /** A date and a time of day, as in 20240131T120000Z. */
  predicate PlainTime(time: Bytes) {
    |time| == 16 && DigitsAt(time, 0, 8) && time[8] == 'T' && DigitsAt(time, 9, 15) && time[15] == 'Z'
  }

  /** The two fields of a text that is a device, a space and a time. */
  function PlainFields(text: Bytes): seq<Bytes> {
    if |text| == 25 && IsDevice(text[..8]) && text[8] == ' ' && PlainTime(text[9..]) then [text[..8], text[9..]] else []
  }

  function PlainRules(): Rules {
    Rules(MarkerPrefix, name => PlainName(name), name => name, text => PlainFields(text), time => PlainTime(time))
  }

  lemma TimeBytes(time: Bytes, c: Byte)
    requires PlainTime(time) && c in time
    ensures IsDigit(c) || c == 'T' || c == 'Z'
  {
    var k :| 0 <= k < |time| && time[k] == c;
  }

  lemma FieldsApart(device: Bytes, time: Bytes)
    requires IsDevice(device) && PlainTime(time)
    ensures PlainFields(device + " " + time) == [device, time]
  {
    var text := device + " " + time;
    assert text[..8] == device && text[8] == ' ' && text[9..] == time;
  }

  lemma FieldsLeaveNoDot(text: Bytes)
    requires |PlainFields(text)| == 2 && '.' !in PlainFields(text)[0] && '.' !in PlainFields(text)[1]
    ensures '.' !in text
  {
    assert text == text[..8] + [' '] + text[9..];
  }

  lemma FieldsNotDigits(text: Bytes)
    requires |PlainFields(text)| == 2
    ensures !AllDigits(text)
  {
    assert text[8] in text;
  }

  /** All that is supposed about names, times and fields can hold together. */
  lemma PlainRulesAreSound()
    ensures RulesSound(PlainRules())
  {
    MarkerPrefixOpens();
    var rules := PlainRules();
    assert NamesSound(rules);
    forall time | rules.time(time)
      ensures |time| == 16 && forall c :: c in time ==> IsDigit(c) || c == 'T' || c == 'Z'
    {
      forall c | c in time
        ensures IsDigit(c) || c == 'T' || c == 'Z'
      {
        TimeBytes(time, c);
      }
    }
    forall device: Bytes, time: Bytes | IsDevice(device) && rules.time(time)
      ensures rules.fields(device + " " + time) == [device, time]
    {
      FieldsApart(device, time);
    }
    forall text | |rules.fields(text)| == 2
      ensures !AllDigits(text)
    {
      FieldsNotDigits(text);
    }
    forall text | |rules.fields(text)| == 2 && '.' !in rules.fields(text)[0] && '.' !in rules.fields(text)[1]
      ensures '.' !in text
    {
      FieldsLeaveNoDot(text);
    }
  }
}
