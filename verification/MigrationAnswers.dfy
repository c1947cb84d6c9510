/**
 Which settings of a vendor source become attributes, receivers and exporters
 of the draft, said of the characters and keys of the source alone.
 */
module MigrationAnswers {
  import opened Basics
  import opened Text
  import opened Migration

  // ----- attribute keys -----

  predicate IsKeyChar(c: char) {
    'a' <= c <= 'z' || 'A' <= c <= 'Z' || '0' <= c <= '9' || c in "_.-/"
  }

  lemma SafeIff(c: char)
    ensures SafeKeyChar(c) <==> IsKeyChar(c)
  {
  }

  /** The characters that carry the name: those of a key but for the underscore. */
  function Letters(s: string): string {
    if s == "" then "" else (if IsKeyChar(s[0]) && s[0] != '_' then [s[0]] else "") + Letters(s[1..])
  }

  lemma Associative(a: string, b: string, c: string)
    ensures (a + b) + c == a + (b + c)
  {
  }

  lemma {:induction false} LettersSplit(a: string, b: string)
    ensures Letters(a + b) == Letters(a) + Letters(b)
  {
    if a == "" {
      assert a + b == b;
    } else {
      assert (a + b)[0] == a[0] && (a + b)[1..] == a[1..] + b;
      LettersSplit(a[1..], b);
      var head := if IsKeyChar(a[0]) && a[0] != '_' then [a[0]] else "";
      assert Letters(a + b) == head + Letters(a[1..] + b) && Letters(a) == head + Letters(a[1..]);
      Associative(head, Letters(a[1..]), Letters(b));
    }
  }

  lemma {:induction false} ReplacedLetters(s: string, inRun: bool)
    ensures Letters(ReplaceRuns(s, inRun)) == Letters(s)
  {
    if s == "" {
    } else {
      SafeIff(s[0]);
      ReplacedLetters(s[1..], !SafeKeyChar(s[0]));
      var head := if SafeKeyChar(s[0]) then [s[0]] else if inRun then "" else "_";
      LettersSplit(head, ReplaceRuns(s[1..], !SafeKeyChar(s[0])));
      assert head != "" ==> head[1..] == "" && Letters(head) == if IsKeyChar(s[0]) && s[0] != '_' then [s[0]] else "";
    }
  }

  lemma {:induction false} TrimmedLetters(s: string)
    ensures Letters(TrimUnderscores(s)) == Letters(s)
    ensures var t := TrimUnderscores(s); t == "" || (t[0] != '_' && t[|t| - 1] != '_')
    decreases |s|
  {
    if s != "" && s[0] == '_' {
      TrimmedLetters(s[1..]);
    } else if s != "" && s[|s| - 1] == '_' {
      var init := s[..|s| - 1];
      TrimmedLetters(init);
      assert s == init + "_" && "_"[1..] == "";
      LettersSplit(init, "_");
    }
  }

  lemma {:induction false} LettersOfKey(s: string)
    requires AllSafe(s) && s != "" && s[0] != '_'
    ensures Letters(s) != ""
  {
    SafeIff(s[0]);
  }

  /** A sanitized key keeps every character that a key may have, in order, but for underscores; of any other text
      it makes underscores, none of them at either end, and of a text without such a character a fixed name. */
  lemma SanitizeAnswers(s: string)
    ensures Letters(TrimSpace(s)) != "" ==> Letters(Sanitize(s)) == Letters(TrimSpace(s))
    ensures Letters(TrimSpace(s)) == "" ==> Sanitize(s) == "unknown"
    ensures Sanitize(s) != "" && forall i | 0 <= i < |Sanitize(s)| :: IsKeyChar(Sanitize(s)[i])
    ensures Sanitize(s)[0] != '_' && Sanitize(s)[|Sanitize(s)| - 1] != '_'
  {
    var r := ReplaceRuns(TrimSpace(s), false);
    var t := TrimUnderscores(r);
    ReplacedLetters(TrimSpace(s), false);
    TrimmedLetters(r);
    ReplacedIsSafe(TrimSpace(s), false);
    TrimmedIsSafe(r);
    if t != "" {
      LettersOfKey(t);
      forall i | 0 <= i < |t| ensures IsKeyChar(t[i]) {
        SafeIff(t[i]);
      }
    }
  }

  lemma {:induction false} SafeTextStays(s: string, inRun: bool)
    requires AllSafe(s)
    ensures ReplaceRuns(s, inRun) == s
  {
    if s == "" {
    } else {
      SafeTextStays(s[1..], false);
      assert s == [s[0]] + s[1..];
    }
  }

  /** A key that is already one, without outer underscores, is left as it is. */
  lemma SanitizeKeepsKeys(s: string)
    requires TrimSpace(s) != "" && forall i | 0 <= i < |TrimSpace(s)| :: IsKeyChar(TrimSpace(s)[i])
    requires TrimSpace(s)[0] != '_' && TrimSpace(s)[|TrimSpace(s)| - 1] != '_'
    ensures Sanitize(s) == TrimSpace(s)
  {
    forall i | 0 <= i < |TrimSpace(s)| ensures SafeKeyChar(TrimSpace(s)[i]) {
      SafeIff(TrimSpace(s)[i]);
    }
    SafeTextStays(TrimSpace(s), false);
  }

  /** So sanitizing twice is sanitizing once. */
  lemma SanitizeTwice(s: string)
    ensures Sanitize(Sanitize(s)) == Sanitize(s)
  {
    var t := Sanitize(s);
    SanitizeAnswers(s);
    KeyCharIsNoSpace(t[0]);
    KeyCharIsNoSpace(t[|t| - 1]);
    NothingToTrim(t);
    SanitizeKeepsKeys(t);
  }

  lemma KeyCharIsNoSpace(c: char)
    requires IsKeyChar(c)
    ensures !IsSpace(c)
  {
  }

  /** A setting is stored exactly when its key, without the spaces around it, has only key characters and at least
      one, the key is no secret, and its value has something in it. */
  lemma StorableIff(isSecret: string -> bool, key: string, value: string)
    ensures Storable(isSecret, key, value) <==>
            && TrimSpace(key) != "" && (forall c | c in TrimSpace(key) :: IsKeyChar(c)) && !isSecret(key)
            && exists c :: c in value && !IsSpace(c)
  {
    forall c ensures SafeKeyChar(c) <==> IsKeyChar(c) {
      SafeIff(c);
    }
  }

  // ----- receivers -----

  /** A Datadog log gets a receiver, numbered by its place, exactly when it is a file and has a path. */
  lemma {:induction false} DatadogLogsAre(logs: seq<LogItem>, name: string)
    ensures name in DatadogLogs(logs) <==>
            exists i | 0 <= i < |logs| ::
              logs[i].isFile && logs[i].path != "" && name == "filelog/datadog_logs_" + Decimal(i)
  {
    if logs == [] {
    } else {
      var n := |logs| - 1;
      DatadogLogsAre(logs[..n], name);
      assert forall i | 0 <= i < n :: logs[..n][i] == logs[i];
    }
  }

  predicate TailsFile(s: Section) {
    Lower(s.name) == "input" && Lower(LastOf(s, "name")) == "tail" && LastOf(s, "path") != ""
  }

  predicate MonitorsFile(s: Section) {
    |s.header| >= 10 && Lower(s.header)[..10] == "monitor://" && LastOf(s, "disabled") != "1"
  }

  predicate Counts(s: Section, splunk: bool) {
    if splunk then MonitorsFile(s) else TailsFile(s)
  }

  ghost function Places(sections: seq<Section>, splunk: bool): set<int> {
    set i | 0 <= i < |sections| && Counts(sections[i], splunk)
  }

  lemma PlacesMore(sections: seq<Section>, s: Section, splunk: bool)
    ensures Places(sections + [s], splunk) ==
            Places(sections, splunk) + if Counts(s, splunk) then {|sections|} else {}
    ensures |sections| !in Places(sections, splunk)
  {
  }

  lemma MonitorsIff(s: Section)
    ensures IsMonitor(s) <==> MonitorsFile(s)
  {
    assert |"monitor://"| == 10;
  }

  lemma TailsIff(s: Section)
    ensures IsTail(s) <==> TailsFile(s)
  {
    assert Lower("Name") == Lower("name") && Lower("Path") == Lower("path");
  }

  /** The numbered receivers of a Fluent Bit or Splunk source are as many as its tail inputs with a path, or its
      monitors that are not switched off. */
  lemma {:induction false} MatchingIsNumber(sections: seq<Section>, splunk: bool)
    ensures Matching(sections, splunk) == |Places(sections, splunk)|
  {
    if sections == [] {
      assert Places(sections, splunk) == {};
    } else {
      var n := |sections| - 1;
      MatchingIsNumber(sections[..n], splunk);
      MonitorsIff(sections[n]);
      TailsIff(sections[n]);
      assert sections[..n] + [sections[n]] == sections;
      PlacesMore(sections[..n], sections[n], splunk);
    }
  }

  /** The filters whose keys become attributes are those named modify or record_modifier, in any case. */
  lemma FilterKeysAre(s: Section)
    ensures FilterKeys(s) ==
            if Lower(s.name) == "filter" && Lower(LastOf(s, "name")) in ["modify", "record_modifier"] then s.keys.Keys
            else {}
  {
    assert Lower("Name") == Lower("name");
  }

  // ----- the exporter -----

  /** An output to an HTTP event collector with an address, and no monitor. */
  predicate SendsToHec(s: Section) {
    && !(|s.header| >= 10 && Lower(s.header)[..10] == "monitor://")
    && (Contains(Lower(s.header), "httpout") || Contains(Lower(s.header), "hec")) && LastOf(s, "uri") != ""
  }

  /** The exporter is the last such output's, cleaned; a source without one keeps the exporter it had. */
  lemma HecAnswers(clean: string -> string, exporters: map<string, string>, sections: seq<Section>)
    ensures (forall i | 0 <= i < |sections| :: !SendsToHec(sections[i])) ==>
              HecExporters(clean, exporters, sections) == exporters
    ensures forall i | 0 <= i < |sections| && SendsToHec(sections[i])
                       && forall j | i < j < |sections| :: !SendsToHec(sections[j]) ::
              HecExporters(clean, exporters, sections) == map["splunk_hec" := clean(LastOf(sections[i], "uri"))]
  {
    assert |"monitor://"| == 10;
    forall i | 0 <= i < |sections| ensures IsHec(sections[i]) <==> SendsToHec(sections[i]) {
    }
    if forall i | 0 <= i < |sections| :: !SendsToHec(sections[i]) {
      NoHecStays(clean, exporters, sections);
    }
    forall i | 0 <= i < |sections| && SendsToHec(sections[i])
               && forall j | i < j < |sections| :: !SendsToHec(sections[j])
      ensures HecExporters(clean, exporters, sections) == map["splunk_hec" := clean(LastOf(sections[i], "uri"))]
    {
      LastHecWins(clean, exporters, sections, i);
    }
  }

  // ----- names do not repeat -----

  lemma {:induction false} DecimalIsOneToOne(m: nat, n: nat)
    ensures Decimal(m) == Decimal(n) ==> m == n
  {
    DecimalIsNumeral(m);
    DecimalIsNumeral(n);
  }

  lemma {:induction false} NumberedAt(prefix: string, n: nat, i: nat)
    requires i < n
    ensures |Numbered(prefix, n)| == n && Numbered(prefix, n)[i] == prefix + Decimal(i)
  {
    if n == 1 {
      assert Numbered(prefix, 0) == [];
    } else if i < n - 1 {
      NumberedAt(prefix, n - 1, i);
    } else {
      NumberedAt(prefix, n - 1, 0);
    }
  }

  /** No two numbered receivers share a name. */
  lemma NumberedAreDistinct(prefix: string, n: nat, i: nat, j: nat)
    requires i < j < n
    ensures |Numbered(prefix, n)| == n && Numbered(prefix, n)[i] != Numbered(prefix, n)[j]
  {
    NumberedAt(prefix, n, i);
    NumberedAt(prefix, n, j);
    DecimalIsOneToOne(i, j);
    assert (prefix + Decimal(i))[|prefix|..] == Decimal(i) && (prefix + Decimal(j))[|prefix|..] == Decimal(j);
  }
}
