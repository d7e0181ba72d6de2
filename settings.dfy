/** The relay's settings (app/settings.py) and the one computed setting the core uses:
    the e-mail recipients parsed from a comma-separated list. */
module Settings {
  import opened Text

  /** The settings the relay reads. Connection details of the channels are not part of this model. */
  datatype Settings = Settings(
    retentionDays: int,
    cleanupIntervalEvents: int,
    defaultTimezone: string,
    emailToCsv: string)

  /** The field validators: `retention_days >= 1`, `cleanup_interval_events >= 1`. */
  predicate ValidSettings(s: Settings) {
    s.retentionDays >= 1 && s.cleanupIntervalEvents >= 1
  }

  /** The defaults: 30 days, every 200 events, America/Sao_Paulo, no recipients. */
  const Defaults: Settings := Settings(30, 200, "America/Sao_Paulo", "")

  /** `[item.strip() for item in items]` */
  function StripAll(items: seq<string>): (r: seq<string>)
    ensures |r| == |items|
  {
    if items == [] then [] else [Strip(items[0])] + StripAll(items[1..])
  }

  /** `[item for item in items if item]` */
  function NonEmpty(items: seq<string>): seq<string>
  {
    if items == [] then []
    else (if items[0] != [] then [items[0]] else []) + NonEmpty(items[1..])
  }

  /** `Settings.email_recipients`: split `email_to_csv` at commas, strip each piece, drop empty pieces. */
  function EmailRecipients(csv: string): (r: seq<string>)
    ensures forall i :: 0 <= i < |r| ==> r[i] != [] && Trimmed(r[i]) && ',' !in r[i]
  {
    var parts := Split(csv, ',');
    SplitPiecesHaveNoSeparator(csv, ',');
    StrippedPiecesHaveNoComma(parts);
    NonEmpty(StripAll(parts))
  }

  lemma {:induction false} StrippedPiecesHaveNoComma(parts: seq<string>)
    requires forall i :: 0 <= i < |parts| ==> ',' !in parts[i]
    ensures forall i :: 0 <= i < |NonEmpty(StripAll(parts))| ==>
      NonEmpty(StripAll(parts))[i] != [] && Trimmed(NonEmpty(StripAll(parts))[i]) && ',' !in NonEmpty(StripAll(parts))[i]
    decreases |parts|
  {
    if parts != [] {
      StrippedPiecesHaveNoComma(parts[1..]);
      assert StripAll(parts)[1..] == StripAll(parts[1..]);
      StripHasNoNewChar(parts[0], ',');
    }
  }

  lemma StripHasNoNewChar(s: string, c: char)
    requires c !in s
    ensures c !in Strip(s)
  {
    var i := StripIsInfix(s);
    assert forall k :: 0 <= k < |Strip(s)| ==> Strip(s)[k] == s[i + k];
  }

  lemma {:induction false} StripAllConcat(a: seq<string>, b: seq<string>)
    ensures StripAll(a + b) == StripAll(a) + StripAll(b)
    decreases |a|
  {
    if a == [] {
      assert a + b == b;
    } else {
      assert (a + b)[0] == a[0];
      assert (a + b)[1..] == a[1..] + b;
      StripAllConcat(a[1..], b);
    }
  }

  lemma {:induction false} NonEmptyConcat(a: seq<string>, b: seq<string>)
    ensures NonEmpty(a + b) == NonEmpty(a) + NonEmpty(b)
    decreases |a|
  {
    if a == [] {
      assert a + b == b;
    } else {
      assert (a + b)[0] == a[0];
      assert (a + b)[1..] == a[1..] + b;
      NonEmptyConcat(a[1..], b);
    }
  }

  /** Recipients keep their order: the recipients of `a,b` are those of `a` followed by those of `b`. */
  lemma RecipientsOfConcat(a: string, b: string)
    ensures EmailRecipients(a + [','] + b) == EmailRecipients(a) + EmailRecipients(b)
  {
    SplitAtSeparator(a, b, ',');
    StripAllConcat(Split(a, ','), Split(b, ','));
    NonEmptyConcat(StripAll(Split(a, ',')), StripAll(Split(b, ',')));
  }

  /** A piece without a comma contributes itself, stripped, unless nothing but whitespace is left. */
  lemma RecipientsOfPiece(s: string)
    requires ',' !in s
    ensures EmailRecipients(s) == if Strip(s) == [] then [] else [Strip(s)]
  {
    SplitWithoutSeparator(s, ',');
    assert StripAll([s]) == [Strip(s)];
    assert NonEmpty([Strip(s)]) == if Strip(s) == [] then [] else [Strip(s)];
  }

  /** Nothing but commas and whitespace. */
  predicate OnlyCommasAndSpace(s: string) {
    forall i :: 0 <= i < |s| ==> s[i] == ',' || IsSpace(s[i])
  }

  lemma OnlyCommasAndSpaceConcat(a: string, b: string)
    ensures OnlyCommasAndSpace(a + [','] + b) <==> OnlyCommasAndSpace(a) && OnlyCommasAndSpace(b)
  {
    var s := a + [','] + b;
    assert forall i :: 0 <= i < |a| ==> s[i] == a[i];
    assert forall i :: 0 <= i < |b| ==> s[|a| + 1 + i] == b[i];
  }

  /** There are no recipients exactly when the list holds nothing but commas and whitespace. */
  lemma {:induction false} NoRecipientsIff(csv: string)
    ensures EmailRecipients(csv) == [] <==> OnlyCommasAndSpace(csv)
    decreases |csv|
  {
    if ',' !in csv {
      RecipientsOfPiece(csv);
      StripEmptyIff(csv);
    } else {
      var k :| 0 <= k < |csv| && csv[k] == ',';
      var a, b := csv[..k], csv[k + 1..];
      assert csv == a + [','] + b;
      RecipientsOfConcat(a, b);
      OnlyCommasAndSpaceConcat(a, b);
      NoRecipientsIff(a);
      NoRecipientsIff(b);
    }
  }

  /** The default, an empty `email_to_csv`, gives no recipients. */
  lemma DefaultHasNoRecipients()
    ensures EmailRecipients(Defaults.emailToCsv) == []
  {
    NoRecipientsIff(Defaults.emailToCsv);
  }
}
