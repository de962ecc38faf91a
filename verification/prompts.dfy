/**
 * The fixed prompts sent to the model: the system message, built from the
 * user's own text and the assistant's persona, and the one-time
 * instruction to number code blocks.
 */
module Prompts {
  import opened Base
  import opened Text

  /** The fixed texts of the prompts, phrase by phrase, one space apart. */
  datatype Fixed = Persona | Numbering | CliNumbering | JsonRule

  function Phrases(f: Fixed): seq<string> {
    match f
    case Persona => [
      "Your name is Penguin Tamer,", "a sysadmin assistant.",
      "You and the user always work in a terminal.",
      "Respond based on the user's environment and commands."]
    case Numbering => [
      "ALWAYS number code blocks in your replies so the user can reference them.",
      "Numbering format: [Code #1]\n```bash ... ```, [Code #2]\n```bash ... ```, etc.",
      "Insert the numbering BEFORE the block.",
      "If there are multiple code blocks, number them sequentially.",
      "In each new reply, start numbering from 1 again.",
      "Do not discuss numbering; just do it automatically."]
    case CliNumbering => [
      "ALWAYS number code blocks in your replies so the user can reference them.",
      "Numbering format: [Code #1]\n```bash ... ```, [Code #2]\n```bash ... ```, etc.",
      "Insert the numbering BEFORE the block",
      "If there are multiple code blocks, number them sequentially.",
      "In each new reply, start numbering from 1 again.",
      "Do not discuss numbering; just do it automatically."]
    case JsonRule => [
      "You must always respond", "with a single JSON object",
      "containing fields 'cmd' and 'info'."]
  }

  /** The sentences, one space apart. */
  function FixedText(f: Fixed): string {
    Join(Phrases(f), " ")
  }

  /** A part of a join occurs in it. */
  lemma {:induction false} JoinHasPart(parts: seq<string>, sep: string, k: nat)
    requires k < |parts|
    ensures Contains(Join(parts, sep), parts[k])
  {
    var j := Join(parts, sep);
    if |parts| == 1 {
      assert OccursAt(j, parts[0], 0);
    } else if k == 0 {
      assert j == parts[0] + (sep + Join(parts[1..], sep));
      assert OccursAt(j, parts[0], 0);
    } else {
      JoinHasPart(parts[1..], sep, k - 1);
      assert j == (parts[0] + sep) + Join(parts[1..], sep);
      var rest := Join(parts[1..], sep);
      OccursRight(parts[0] + sep, rest, parts[k], IndexFrom(rest, parts[k], 0).value);
    }
    ContainsIff(j, parts[k]);
  }

  /** A join starts with its first part's first character and ends with its last part's last one. */
  lemma {:induction false} JoinEnds(parts: seq<string>, sep: string)
    requires parts != [] && forall i :: 0 <= i < |parts| ==> parts[i] != []
    ensures var j := Join(parts, sep);
      j != [] && j[0] == parts[0][0] && j[|j| - 1] == parts[|parts| - 1][|parts[|parts| - 1]| - 1]
  {
    if |parts| > 1 {
      JoinEnds(parts[1..], sep);
      assert Join(parts, sep) == parts[0] + sep + Join(parts[1..], sep);
    }
  }

  /** Both ends of the persona are printable. */
  lemma PersonaEnds()
    ensures var s := FixedText(Persona); s != [] && !IsSpace(s[0]) && !IsSpace(s[|s| - 1])
  {
    var ps := Phrases(Persona);
    assert ps[0][0] == 'Y' && ps[3][|ps[3]| - 1] == '.';
    JoinEnds(ps, " ");
  }

  /** `get_system_prompt`, given the configured `user_content`. */
  function SystemPrompt(userPrompt: string): Message {
    var base := FixedText(Persona);
    SystemMessage(if userPrompt != "" then Strip(userPrompt + " " + base) else base)
  }

  /** Stripping a text that ends in a word printable at both ends only trims the front. */
  lemma StripBefore(u: string, base: string)
    requires base != [] && !IsSpace(base[0]) && !IsSpace(base[|base| - 1])
    ensures Strip(u + base) == LStrip(u) + base
  {
    StripAround(u, base, "");
    assert u + base + "" == u + base;
    assert RStrip("") == "";
  }

  /** A text is a suffix of anything that ends with it. */
  lemma EndsWithAppended(c: string, base: string)
    ensures EndsWith(c + base, base)
  {
    assert (c + base)[|c + base| - |base|..] == base;
  }

  /**
   * The system message's text: the persona alone without user text;
   * otherwise the user's text, its leading white space dropped, then one
   * space and the persona, so a user text starting with a printable
   * character is kept exactly.
   */
  lemma SystemPromptContent(userPrompt: string)
    ensures var m := SystemPrompt(userPrompt);
      && (userPrompt == "" ==> m.content == FixedText(Persona))
      && (userPrompt != "" ==> m.content == LStrip(userPrompt + " ") + FixedText(Persona))
      && (userPrompt != "" && !IsSpace(userPrompt[0]) ==>
            m.content == userPrompt + " " + FixedText(Persona))
  {
    PersonaEnds();
    if userPrompt != "" {
      var u := userPrompt + " ";
      StripBefore(u, FixedText(Persona));
      if !IsSpace(userPrompt[0]) {
        assert u[0] == userPrompt[0];
        assert LStrip(u) == u;
      }
    }
  }

  /** The system message is a `system` message that always ends with the persona. */
  lemma SystemPromptEndsWithPersona(userPrompt: string)
    ensures SystemPrompt(userPrompt).role == "system"
    ensures EndsWith(SystemPrompt(userPrompt).content, FixedText(Persona))
  {
    SystemPromptContent(userPrompt);
    if userPrompt != "" {
      EndsWithAppended(LStrip(userPrompt + " "), FixedText(Persona));
    } else {
      EndsWithAppended("", FixedText(Persona));
      assert "" + FixedText(Persona) == FixedText(Persona);
    }
  }

  /** `get_educational_prompt` */
  function EducationalPrompt(): Message {
    UserMessage(FixedText(Numbering))
  }

  /**
   * The instruction is a user message; asking for numbering to restart in
   * every reply is one of its phrases, and each phrase occurs in its text.
   */
  lemma EducationalAsksRestart()
    ensures EducationalPrompt().role == "user"
    ensures "In each new reply, start numbering from 1 again." in Phrases(Numbering)
    ensures forall k :: 0 <= k < |Phrases(Numbering)| ==> Contains(EducationalPrompt().content, Phrases(Numbering)[k])
  {
    forall k | 0 <= k < |Phrases(Numbering)|
      ensures Contains(EducationalPrompt().content, Phrases(Numbering)[k])
    {
      FixedHasPhrase(Numbering, k);
    }
  }

  /** Every phrase of a fixed text occurs in it. */
  lemma FixedHasPhrase(f: Fixed, k: nat)
    requires k < |Phrases(f)|
    ensures Contains(FixedText(f), Phrases(f)[k])
  {
    JoinHasPart(Phrases(f), " ", k);
  }
}
