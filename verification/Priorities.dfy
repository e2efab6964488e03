/** The priority of a message, on the operator's wire and in the channel gateway alike. */
module Priorities {
  import opened Text

  datatype Priority = Low | Normal | High | Critical

  function PriorityName(p: Priority): string {
    match p
    case Low => "Low"
    case Normal => "Normal"
    case High => "High"
    case Critical => "Critical"
  }

  /** `Priority::parse`: trimmed, case-insensitive, anything unknown is `Normal`. */
  function ParsePriority(s: string): Priority {
    var t := Lower(Trim(s));
    if t == "low" then Low
    else if t == "high" then High
    else if t == "critical" then Critical
    else Normal
  }

  /** `s` is the wire name of `p`, in any letter case and any margins. */
  ghost predicate Names(s: string, p: Priority) {
    exists lead, name, trail {:trigger lead + name + trail} ::
      IsBlank(lead) && IsBlank(trail) && s == lead + name + trail && Lower(name) == Lower(PriorityName(p))
  }

  lemma NameIsTrimmed(p: Priority, name: string)
    requires Lower(name) == Lower(PriorityName(p))
    ensures name != "" && !IsWhitespace(name[0]) && !IsWhitespace(name[|name| - 1])
  {
    var n := PriorityName(p);
    assert forall i :: 0 <= i < |name| ==> LowerChar(name[i]) == Lower(n)[i];
    assert !IsWhitespace(name[0]) by { assert LowerChar(name[0]) == LowerChar(n[0]); }
    assert !IsWhitespace(name[|name| - 1]) by { assert LowerChar(name[|name| - 1]) == LowerChar(n[|n| - 1]); }
  }

  lemma LowerNames(p: Priority)
    ensures Lower(PriorityName(p)) ==
            if p.Low? then "low" else if p.High? then "high" else if p.Critical? then "critical" else "normal"
  {
    match p
    case Low => assert Lower("Low") == "low";
    case Normal => assert Lower("Normal") == "normal";
    case High => assert Lower("High") == "high";
    case Critical => assert Lower("Critical") == "critical";
  }

  /** Every priority survives its own wire spelling, in any letter case. */
  lemma PriorityRoundTrip(p: Priority, s: string)
    requires Names(s, p)
    ensures ParsePriority(s) == p
  {
    var lead, name, trail :|
      IsBlank(lead) && IsBlank(trail) && s == lead + name + trail && Lower(name) == Lower(PriorityName(p));
    NameIsTrimmed(p, name);
    TrimMargins(lead, name, trail);
    LowerNames(p);
  }

  /** A text is read as a priority if and only if it names it, and as `Normal` also when it names none. */
  lemma ParsedPriorityIff(p: Priority, s: string)
    ensures ParsePriority(s) == p <==> Names(s, p) || (p == Normal && forall q :: !Names(s, q))
  {
    var r := ParsePriority(s);
    forall q | Names(s, q) ensures q == r {
      PriorityRoundTrip(q, s);
    }
    if r != Normal {
      var lead, trail := TrimParts(s);
      LowerNames(r);
      assert s == lead + Trim(s) + trail;
      assert Names(s, r);
    }
  }
}
