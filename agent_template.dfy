/**
 * The names the agent template generator derives from an agent's name before
 * filling its code template: the class name, the English and Chinese titles,
 * the agent type, the two agent ids and the default output file.
 */
module AgentTemplate {
  import opened Text

  /** The values `generate_agent` fills into the template, apart from the fixed ones. */
  datatype Names = Names(
    className: string,
    agentTitle: string,
    agentTitleCn: string,
    description: string,
    agentType: string,
    defaultAgentId: string,
    testAgentId: string)

  const AgentSuffix := " Agent"
  const GeneratedSuffix := " - 自动生成的 Agent"
  const DefaultIdSuffix := "_001"
  const TestIdSuffix := "_test_001"
  const OutputSuffix := "_agent.py"

  /** Python's `s or t` for an optional string: `t` when `s` is None or empty. */
  function OrElse(s: Option<string>, t: string): (r: string)
    ensures s.Some? && s.value != "" ==> r == s.value
    ensures s.None? || s.value == "" ==> r == t
  {
    if s.Some? && s.value != "" then s.value else t
  }

  /** class_name: the name without its spaces and underscores. */
  function ClassName(name: string): (r: string)
    ensures ' ' !in r && '_' !in r
    ensures |r| == |name| - Count(name, ' ') - Count(name, '_')
    ensures forall d :: d != ' ' && d != '_' ==> Count(r, d) == Count(name, d)
  {
    RemoveChar(RemoveChar(name, ' '), '_')
  }

  /**
   * agent_title: underscores become spaces, then `title()`: a letter is
   * upper-cased exactly when the character before it is not a letter.
   */
  function AgentTitle(name: string): (r: string)
    ensures |r| == |name|
    ensures '_' !in r
    ensures forall i :: 0 <= i < |name| ==>
              r[i] == if name[i] == '_' then ' ' else TitleChar(name[i], i > 0 && IsLetter(name[i - 1]))
  {
    var spaced := ReplaceChar(name, '_', ' ');
    var r := Title(spaced);
    assert forall i :: 0 <= i < |name| ==> r[i] == TitleChar(spaced[i], i > 0 && IsLetter(spaced[i - 1]));
    assert forall i :: 0 <= i < |r| ==> r[i] != '_' by {
      forall i | 0 <= i < |r|
        ensures r[i] != '_'
      {
        var c := TitleChar(spaced[i], i > 0 && IsLetter(spaced[i - 1]));
        assert r[i] == c && spaced[i] != '_';
        assert IsLetter(c) == IsLetter(spaced[i]);
      }
    }
    r
  }

  /** agent_title_cn: the description when one is given, else "<name> Agent". */
  function AgentTitleCn(name: string, description: Option<string>): (r: string)
    ensures description.Some? && description.value != "" ==> r == description.value
    ensures description.None? || description.value == "" ==> r == name + AgentSuffix
  {
    OrElse(description, name + AgentSuffix)
  }

  /** agent_type: the name lower-cased, spaces turned into underscores. */
  function AgentType(name: string): (r: string)
    ensures |r| == |name|
    ensures ' ' !in r
    ensures forall i :: 0 <= i < |r| ==> !IsUpper(r[i])
    ensures forall i :: 0 <= i < |name| ==> r[i] == if name[i] == ' ' then '_' else ToLower(name[i])
  {
    ReplaceChar(Lower(name), ' ', '_')
  }

  /** generate_agent's derived values for `name` and the optional `description`. */
  function Derive(name: string, description: Option<string>): (r: Names)
    ensures r.className == ClassName(name) && r.agentTitle == AgentTitle(name)
    ensures r.agentType == AgentType(name)
    ensures r.defaultAgentId == AgentType(name) + DefaultIdSuffix
    ensures r.testAgentId == AgentType(name) + TestIdSuffix
    ensures r.agentTitleCn == AgentTitleCn(name, description)
    ensures r.description == OrElse(description, AgentTitleCn(name, description) + GeneratedSuffix)
  {
    var titleCn := AgentTitleCn(name, description);
    var agentType := AgentType(name);
    Names(ClassName(name), AgentTitle(name), titleCn,
          OrElse(description, titleCn + GeneratedSuffix),
          agentType, agentType + DefaultIdSuffix, agentType + TestIdSuffix)
  }

  /** The output file when none is given: "<name lower-cased>_agent.py". */
  function OutputFile(name: string, output: Option<string>): (r: string)
    ensures output.Some? && output.value != "" ==> r == output.value
    ensures output.None? || output.value == "" ==> r == Lower(name) + OutputSuffix
  {
    OrElse(output, Lower(name) + OutputSuffix)
  }

  // ------------------------------------------------------------------ lemmas

  /** Removing spaces and underscores twice removes nothing more. */
  lemma ClassNameIdempotent(name: string)
    ensures ClassName(ClassName(name)) == ClassName(name)
  {
    RemoveAbsent(ClassName(name), ' ');
    RemoveAbsent(RemoveChar(ClassName(name), ' '), '_');
  }

  lemma {:induction false} RemoveAbsent(s: string, c: char)
    requires c !in s
    ensures RemoveChar(s, c) == s
  {
    if s != [] {
      assert c !in s[1..];
      RemoveAbsent(s[1..], c);
    }
  }

  /** The type of a type is itself. */
  lemma AgentTypeIdempotent(name: string)
    ensures AgentType(AgentType(name)) == AgentType(name)
  {
    var t := AgentType(name);
    forall i | 0 <= i < |t|
      ensures AgentType(t)[i] == t[i]
    {
      assert !IsUpper(t[i]) && t[i] != ' ';
    }
  }

  /** Two names of the same type share both agent ids, and names of different types share neither. */
  lemma AgentIdsDetermineType(a: string, b: string)
    ensures Derive(a, None).defaultAgentId == Derive(b, None).defaultAgentId <==> AgentType(a) == AgentType(b)
    ensures Derive(a, None).testAgentId == Derive(b, None).testAgentId <==> AgentType(a) == AgentType(b)
  {
    var ta, tb := AgentType(a), AgentType(b);
    if ta + DefaultIdSuffix == tb + DefaultIdSuffix {
      assert ta == (ta + DefaultIdSuffix)[..|ta|];
      assert tb == (tb + DefaultIdSuffix)[..|tb|];
    }
    if ta + TestIdSuffix == tb + TestIdSuffix {
      assert ta == (ta + TestIdSuffix)[..|ta|];
      assert tb == (tb + TestIdSuffix)[..|tb|];
    }
  }

  /** The test id is the default id with "test_" put before its number. */
  lemma TestIdExtendsType(name: string)
    ensures var r := Derive(name, None);
      |r.testAgentId| == |r.defaultAgentId| + 5 &&
      r.testAgentId[..|r.agentType|] == r.defaultAgentId[..|r.agentType|] == r.agentType
  {
  }

  /** For a name without spaces, the default output file is the agent type followed by "_agent.py". */
  lemma OutputFileMatchesType(name: string)
    requires ' ' !in name
    ensures OutputFile(name, None) == AgentType(name) + OutputSuffix
  {
    assert Lower(name) == AgentType(name);
  }

  /** Every non-letter other than '_' passes through the title unchanged. */
  lemma AgentTitleKeepsNonLetters(name: string, i: nat)
    requires i < |name| && !IsLetter(name[i]) && name[i] != '_'
    ensures AgentTitle(name)[i] == name[i]
  {
    assert TitleChar(name[i], i > 0 && IsLetter(name[i - 1])) == name[i];
  }

  /** A name made of letters only keeps its first letter, upper-cased, and lower-cases the rest. */
  lemma LettersOnlyTitle(name: string)
    requires |name| > 0 && forall i :: 0 <= i < |name| ==> IsLetter(name[i])
    ensures AgentTitle(name) == [ToUpper(name[0])] + Lower(name[1..])
  {
    var t := AgentTitle(name);
    var u := [ToUpper(name[0])] + Lower(name[1..]);
    forall i | 0 <= i < |name|
      ensures t[i] == u[i]
    {
      if i > 0 {
        assert IsLetter(name[i - 1]);
        assert u[i] == Lower(name[1..])[i - 1];
      }
    }
  }

}
