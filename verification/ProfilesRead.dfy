/**
 What a reader makes of the configuration: a section from the line that names its profile to the next such
 line, and in it the value after "key = " (internal/webhook/profiles.go:40-96).
 */
module ProfilesRead {
  import opened Options
  import opened Profiles

  /** The text between newlines, and what is left after the last. */
  function LinesOf(text: string): (lines: seq<string>)
    ensures lines != []
  {
    if text == "" then [""]
    else
      var rest := LinesOf(text[1..]);
      if text[0] == '\n' then [""] + rest else [[text[0]] + rest[0]] + rest[1..]
  }

  /** Up to the next line that opens a section. */
  function Body(lines: seq<string>): seq<string> {
    if lines == [] || (lines[0] != "" && lines[0][0] == '[') then [] else [lines[0]] + Body(lines[1..])
  }

  function SectionNamed(lines: seq<string>, name: string): Option<seq<string>> {
    if lines == [] then None
    else if lines[0] == "[" + name + "]" then Some(Body(lines[1..]))
    else SectionNamed(lines[1..], name)
  }

  /** What the first line of this key says. */
  function ValueIn(lines: seq<string>, key: string): Option<string> {
    if lines == [] then None
    else if key + " = " <= lines[0] then Some(lines[0][|key + " = "|..])
    else ValueIn(lines[1..], key)
  }

  function Read(text: string, profile: string, key: string): Option<string> {
    match SectionNamed(LinesOf(text), profile)
    case None => None
    case Some(lines) => ValueIn(lines, key)
  }

  /** Fields that do not end their line. */
  predicate OnOneLine(i: Identity) {
    '\n' !in i.profile && '\n' !in i.clientId && '\n' !in i.audience
  }

  /******* The text is the lines of its sections *******/

  lemma {:induction false} UsablesAre(identities: seq<Identity>)
    ensures forall i :: i in Usables(identities) <==> i in identities && i.Usable()
  {
    if identities != [] {
      assert identities == identities[..|identities| - 1] + [identities[|identities| - 1]];
      UsablesAre(identities[..|identities| - 1]);
    }
  }

  /** Section after section, a blank line before every one but the first. */
  function Sections(identities: seq<Identity>): seq<string> {
    if identities == [] then []
    else if |identities| == 1 then Section(identities[0])
    else Section(identities[0]) + [""] + Sections(identities[1..])
  }

  lemma {:induction false} OneMoreSection(identities: seq<Identity>, last: Identity)
    ensures Sections(identities + [last]) ==
      Sections(identities) + (if identities == [] then [] else [""]) + Section(last)
  {
    hide Section;
    if identities == [] {
      assert identities + [last] == [last] && Sections([]) + [] + Section(last) == Section(last);
    } else {
      OneMoreSection(identities[1..], last);
      var all := identities + [last];
      var first := Section(identities[0]);
      assert all[0] == identities[0] && all[1..] == identities[1..] + [last];
      assert Sections(all) == first + [""] + Sections(all[1..]);
      if |identities| == 1 {
        assert identities[1..] == [];
        assert Sections([]) + [] + Section(last) == Section(last);
      } else {
        assert Sections(identities) == first + [""] + Sections(identities[1..]);
      }
    }
  }

  lemma {:induction false} LinesJoin(a: seq<string>, b: seq<string>)
    ensures Lines(a + b) == Lines(a) + Lines(b)
  {
    if a == [] {
      assert a + b == b && "" + Lines(b) == Lines(b);
    } else {
      LinesJoin(a[1..], b);
      assert (a + b)[1..] == a[1..] + b;
      assert Lines(a + b) == a[0] + "\n" + (Lines(a[1..]) + Lines(b));
    }
  }

  lemma {:induction false} RenderedIsLines(identities: seq<Identity>)
    ensures Rendered(identities) == Lines(Sections(Usables(identities)))
    ensures Rendered(identities) == "" <==> Usables(identities) == []
  {
    hide Section;
    if identities != [] {
      var before, last := identities[..|identities| - 1], identities[|identities| - 1];
      RenderedIsLines(before);
      if last.Usable() {
        OneMoreBlock(Blocks(before), Block(last));
        OneMoreSection(Usables(before), last);
        LinesJoin(Sections(Usables(before)), [""]);
        LinesJoin(Sections(Usables(before)) + (if Usables(before) == [] then [] else [""]), Section(last));
        assert Lines([""]) == "\n" by { assert [""][1..] == []; }
        assert Sections(Usables(before)) + [] == Sections(Usables(before));
        SectionIsNotEmpty(last);
      }
    }
  }

  lemma SectionIsNotEmpty(i: Identity)
    ensures Block(i) != ""
  {
  }

  lemma {:induction false} LineIsRead(line: string, rest: string)
    requires '\n' !in line
    ensures LinesOf(line + "\n" + rest) == [line] + LinesOf(rest)
  {
    var text := line + "\n" + rest;
    if line == "" {
      assert text[0] == '\n' && text[1..] == rest;
    } else {
      assert line[0] in line && forall c | c in line[1..] :: c in line;
      LineIsRead(line[1..], rest);
      assert text[1..] == line[1..] + "\n" + rest;
      assert [line[0]] + line[1..] == line;
      assert ([line[1..]] + LinesOf(rest))[1..] == LinesOf(rest);
    }
  }

  lemma {:induction false} LinesAreRead(lines: seq<string>)
    requires forall line | line in lines :: '\n' !in line
    ensures LinesOf(Lines(lines)) == lines + [""]
  {
    if lines == [] {
      assert lines + [""] == [""];
    } else {
      assert lines[0] in lines;
      LinesAreRead(lines[1..]);
      LineIsRead(lines[0], Lines(lines[1..]));
      assert [lines[0]] + (lines[1..] + [""]) == lines + [""];
    }
  }

  lemma SectionOnLines(i: Identity)
    requires OnOneLine(i)
    ensures forall line | line in Section(i) :: '\n' !in line
  {
    PathIsClear(i.profile, '\n');
    LabelsAreClear();
    PathLabelsAreClear();
  }

  lemma {:induction false} SectionsOnLines(identities: seq<Identity>)
    requires forall i | i in identities :: OnOneLine(i)
    ensures forall line | line in Sections(identities) :: '\n' !in line
  {
    hide Section;
    if identities != [] {
      SectionOnLines(identities[0]);
      assert identities[0] in identities;
      SectionsOnLines(identities[1..]);
    }
  }

  /******* Each section is found by its name *******/

  /** Lines of the six values, none of which opens a section. */
  function Values(i: Identity): seq<string> {
    Section(i)[1..]
  }

  lemma ValuesOpenNothing(i: Identity)
    ensures forall line | line in Values(i) :: line != "" && line[0] != '['
  {
  }

  lemma {:induction false} BodyEnds(lines: seq<string>, rest: seq<string>)
    requires forall line | line in lines :: line == "" || line[0] != '['
    ensures Body(lines + rest) == lines + Body(rest)
  {
    if lines == [] {
      assert lines + rest == rest && lines + Body(rest) == Body(rest);
    } else {
      assert lines[0] in lines && (lines + rest)[1..] == lines[1..] + rest;
      BodyEnds(lines[1..], rest);
      assert [lines[0]] + (lines[1..] + Body(rest)) == lines + Body(rest);
    }
  }

  lemma {:induction false} NotNamedHere(lines: seq<string>, rest: seq<string>, name: string)
    requires forall line | line in lines :: line != "[" + name + "]"
    ensures SectionNamed(lines + rest, name) == SectionNamed(rest, name)
  {
    if lines == [] {
      assert lines + rest == rest;
    } else {
      assert lines[0] in lines && (lines + rest)[1..] == lines[1..] + rest;
      assert forall line | line in lines[1..] :: line in lines;
      NotNamedHere(lines[1..], rest, name);
    }
  }

  lemma HeaderNames(a: string, b: string)
    ensures "[" + a + "]" == "[" + b + "]" ==> a == b
  {
    assert ("[" + a + "]")[1..|a| + 1] == a && ("[" + b + "]")[1..|b| + 1] == b;
  }

  /** The first of several sections, and how the rest follows it. */
  lemma FirstSection(identities: seq<Identity>) returns (rest: seq<string>)
    requires identities != []
    ensures Sections(identities) + [""] == ["[" + identities[0].profile + "]"] + Values(identities[0]) + [""] + rest
    ensures rest == if |identities| == 1 then [] else Sections(identities[1..]) + [""]
    ensures Body(rest) == []
  {
    var section := Section(identities[0]);
    assert section == ["[" + identities[0].profile + "]"] + Values(identities[0]);
    rest := if |identities| == 1 then [] else Sections(identities[1..]) + [""];
    if |identities| > 1 {
      assert Sections(identities) + [""] == section + [""] + rest;
      assert Section(identities[1])[0] == rest[0];
    }
  }

  lemma FirstIsFound(identities: seq<Identity>)
    requires identities != []
    ensures SectionNamed(Sections(identities) + [""], identities[0].profile) == Some(Values(identities[0]) + [""])
  {
    hide Values, Sections, Section, Body;
    var rest := FirstSection(identities);
    var header, values := "[" + identities[0].profile + "]", Values(identities[0]);
    var lines := Sections(identities) + [""];
    assert lines[1..] == (values + [""]) + rest;
    ValuesOpenNothing(identities[0]);
    BodyEnds(values + [""], rest);
    assert values + [""] + [] == values + [""];
  }

  lemma OthersAreFurtherOn(identities: seq<Identity>, name: string)
    requires identities != [] && identities[0].profile != name
    ensures SectionNamed(Sections(identities) + [""], name) ==
      if |identities| == 1 then None else SectionNamed(Sections(identities[1..]) + [""], name)
  {
    hide Values, Sections, Section, Body;
    var rest := FirstSection(identities);
    var header, values := "[" + identities[0].profile + "]", Values(identities[0]);
    var skipped := [header] + values + [""];
    assert Sections(identities) + [""] == skipped + rest;
    ValuesOpenNothing(identities[0]);
    HeaderNames(identities[0].profile, name);
    forall line | line in skipped
      ensures line != "[" + name + "]"
    {
    }
    NotNamedHere(skipped, rest, name);
  }

  lemma {:induction false} SectionIsFound(identities: seq<Identity>, name: string)
    requires forall i, j | 0 <= i < j < |identities| :: identities[i].profile != identities[j].profile
    ensures (forall i | i in identities :: i.profile != name) ==>
      SectionNamed(Sections(identities) + [""], name) == None
    ensures forall i | i in identities && i.profile == name ::
      SectionNamed(Sections(identities) + [""], name) == Some(Values(i) + [""])
  {
    if identities == [] {
      assert Sections(identities) + [""] == [""] && [""][1..] == [];
    } else {
      LaterSectionIsFound(identities, name);
    }
  }

  lemma {:induction false} LaterSectionIsFound(identities: seq<Identity>, name: string)
    requires identities != []
    requires forall i, j | 0 <= i < j < |identities| :: identities[i].profile != identities[j].profile
    ensures (forall i | i in identities :: i.profile != name) ==>
      SectionNamed(Sections(identities) + [""], name) == None
    ensures forall i | i in identities && i.profile == name ::
      SectionNamed(Sections(identities) + [""], name) == Some(Values(i) + [""])
  {
    hide Values, Sections, Section, SectionNamed;
    assert forall k | 0 < k < |identities| :: identities[1..][k - 1] == identities[k];
    assert identities[0] in identities;
    if identities[0].profile == name {
      FirstIsFound(identities);
    } else {
      OthersAreFurtherOn(identities, name);
      if |identities| > 1 {
        LaterSectionIsFound(identities[1..], name);
      }
    }
    forall i | i in identities && i != identities[0]
      ensures i in identities[1..]
    {
      var k :| 0 <= k < |identities| && identities[k] == i;
      assert identities[1..][k - 1] == i;
    }
  }

  /******* And each value by its key *******/

  lemma NotThisKey(key: string, lines: seq<string>, k: nat)
    requires lines != [] && k < |key + " = "|
    requires k >= |lines[0]| || lines[0][k] != (key + " = ")[k]
    ensures ValueIn(lines, key) == ValueIn(lines[1..], key)
  {
  }

  lemma ThisKey(key: string, value: string, lines: seq<string>)
    requires lines != [] && lines[0] == key + " = " + value
    ensures ValueIn(lines, key) == Some(value)
  {
    assert lines[0][..|key + " = "|] == key + " = ";
  }

  /** Nothing in a section is read under a key but what stands there for it. */
  lemma ValuesAreRead(i: Identity)
    ensures var lines := Values(i) + [""];
      && ValueIn(lines, "auth_type") == Some("file-oidc")
      && ValueIn(lines, "client_id") == Some(i.clientId)
      && ValueIn(lines, "databricks_id_token_filepath") == Some(TokenPathFor(i.profile))
      && ValueIn(lines, "oidc_token_filepath") == Some(TokenPathFor(i.profile))
      && ValueIn(lines, "audience") == Some(i.audience)
      && ValueIn(lines, "token_audience") == Some(i.audience)
  {
    hide TokenPathFor, ValueIn;
    var lines := Values(i) + [""];
    ThisKey("auth_type", "file-oidc", lines);
    NotThisKey("client_id", lines, 0);
    ThisKey("client_id", i.clientId, lines[1..]);
    NotThisKey("databricks_id_token_filepath", lines, 0);
    NotThisKey("databricks_id_token_filepath", lines[1..], 0);
    ThisKey("databricks_id_token_filepath", TokenPathFor(i.profile), lines[1..][1..]);
    OtherValuesAreRead(i, lines);
  }

  lemma OtherValuesAreRead(i: Identity, lines: seq<string>)
    requires lines == Values(i) + [""]
    ensures ValueIn(lines, "oidc_token_filepath") == Some(TokenPathFor(i.profile))
    ensures ValueIn(lines, "audience") == Some(i.audience)
    ensures ValueIn(lines, "token_audience") == Some(i.audience)
  {
    hide TokenPathFor, ValueIn;
    NotThisKey("oidc_token_filepath", lines, 0);
    NotThisKey("oidc_token_filepath", lines[1..], 0);
    NotThisKey("oidc_token_filepath", lines[1..][1..], 0);
    ThisKey("oidc_token_filepath", TokenPathFor(i.profile), lines[1..][1..][1..]);
    NotThisKey("audience", lines, 2);
    NotThisKey("audience", lines[1..], 0);
    NotThisKey("audience", lines[1..][1..], 0);
    NotThisKey("audience", lines[1..][1..][1..], 0);
    ThisKey("audience", i.audience, lines[1..][1..][1..][1..]);
    NotThisKey("token_audience", lines, 0);
    NotThisKey("token_audience", lines[1..], 0);
    NotThisKey("token_audience", lines[1..][1..], 0);
    NotThisKey("token_audience", lines[1..][1..][1..], 0);
    NotThisKey("token_audience", lines[1..][1..][1..][1..], 0);
    ThisKey("token_audience", i.audience, lines[1..][1..][1..][1..][1..]);
  }

  /**
   What was rendered is read back: in the section of an identity that can be used, its client id, its
   audience and the place of its token, each under both the names an SDK may know it by; and no section of
   any other name, so none of one that cannot be used.
   */
  lemma RenderedReadsBack(identities: seq<Identity>, i: Identity)
    requires forall j | j in identities :: OnOneLine(j)
    requires forall j, k | 0 <= j < k < |identities| :: identities[j].profile != identities[k].profile
    requires i in identities
    ensures var text, profile := Rendered(identities), i.profile;
      if i.servicePrincipalId != "" && !i.removed then
        && Read(text, profile, "auth_type") == Some("file-oidc")
        && Read(text, profile, "client_id") == Some(i.clientId)
        && Read(text, profile, "databricks_id_token_filepath") == Some(TokenPathFor(profile))
        && Read(text, profile, "oidc_token_filepath") == Some(TokenPathFor(profile))
        && Read(text, profile, "audience") == Some(i.audience)
        && Read(text, profile, "token_audience") == Some(i.audience)
      else SectionNamed(LinesOf(text), profile) == None
  {
    hide TokenPathFor, ValueIn, Values, LinesOf, Rendered;
    LinesRead(identities);
    SectionIsFound(Usables(identities), i.profile);
    if i.Usable() {
      ValuesAreRead(i);
    } else {
      forall k | k in Usables(identities)
        ensures k.profile != i.profile
      {
        UsablesAre(identities);
      }
    }
  }

  /** A name that no usable identity has names no section. */
  lemma NothingElseIsRead(identities: seq<Identity>, name: string)
    requires forall j | j in identities :: OnOneLine(j)
    requires forall j, k | 0 <= j < k < |identities| :: identities[j].profile != identities[k].profile
    requires forall i | i in identities && i.Usable() :: i.profile != name
    ensures SectionNamed(LinesOf(Rendered(identities)), name) == None
  {
    hide LinesOf, Rendered;
    LinesRead(identities);
    SectionIsFound(Usables(identities), name);
  }

  lemma LinesRead(identities: seq<Identity>)
    requires forall j | j in identities :: OnOneLine(j)
    requires forall j, k | 0 <= j < k < |identities| :: identities[j].profile != identities[k].profile
    ensures LinesOf(Rendered(identities)) == Sections(Usables(identities)) + [""]
    ensures forall i :: i in Usables(identities) <==> i in identities && i.Usable()
    ensures forall j, k | 0 <= j < k < |Usables(identities)| ::
      Usables(identities)[j].profile != Usables(identities)[k].profile
  {
    hide LinesOf, Rendered, Section;
    UsablesAre(identities);
    UsablesApart(identities);
    RenderedIsLines(identities);
    SectionsOnLines(Usables(identities));
    LinesAreRead(Sections(Usables(identities)));
  }

  lemma {:induction false} UsablesApart(identities: seq<Identity>)
    requires forall j, k | 0 <= j < k < |identities| :: identities[j].profile != identities[k].profile
    ensures forall j, k | 0 <= j < k < |Usables(identities)| ::
      Usables(identities)[j].profile != Usables(identities)[k].profile
  {
    if identities != [] {
      var before, last := identities[..|identities| - 1], identities[|identities| - 1];
      UsablesApart(before);
      UsablesAre(before);
      forall i | i in before
        ensures i.profile != last.profile
      {
        var k :| 0 <= k < |before| && before[k] == i;
        assert identities[k] == i;
      }
    }
  }
}
