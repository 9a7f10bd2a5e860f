/**
 * The logger's urgency enumeration: five levels ordered by increasing
 * criticality. A record stores the level's symbolic name, never its value.
 */
module Urgencies {
  import opened Wrappers

  datatype Urgency =
    | NONE      // default when no urgency is given
    | LOW       // expected event or result
    | MODERATE  // potentially unexpected event or result
    | HIGH      // caught exception, unexpected event
    | SEVERE    // exception that breaks the system

  /** The numeric value the enumeration assigns to a level. */
  function Value(u: Urgency): (v: nat)
    ensures v <= 4
    ensures v == 0 <==> u == NONE
  {
    match u
    case NONE => 0
    case LOW => 1
    case MODERATE => 2
    case HIGH => 3
    case SEVERE => 4
  }

  /** The level with a given value, as the enumeration's lookup by value gives it. */
  function FromValue(v: int): (r: Option<Urgency>)
    ensures r.Some? <==> 0 <= v <= 4
    ensures r.Some? ==> Value(r.value) == v
  {
    if v == 0 then Some(NONE)
    else if v == 1 then Some(LOW)
    else if v == 2 then Some(MODERATE)
    else if v == 3 then Some(HIGH)
    else if v == 4 then Some(SEVERE)
    else None
  }

  /** The symbolic name of a level: the text written to a record's urgency column. */
  function Name(u: Urgency): (r: string)
    ensures 3 <= |r| && forall i :: 0 <= i < |r| ==> 'A' <= r[i] <= 'Z'
    ensures r == "NONE" <==> u == NONE
  {
    match u
    case NONE => "NONE"
    case LOW => "LOW"
    case MODERATE => "MODERATE"
    case HIGH => "HIGH"
    case SEVERE => "SEVERE"
  }

  /** Reads a stored urgency column back as a level. */
  function FromName(s: string): (r: Option<Urgency>)
    ensures r.Some? ==> Name(r.value) == s
  {
    if s == "NONE" then Some(NONE)
    else if s == "LOW" then Some(LOW)
    else if s == "MODERATE" then Some(MODERATE)
    else if s == "HIGH" then Some(HIGH)
    else if s == "SEVERE" then Some(SEVERE)
    else None
  }

  /** A missing urgency is taken to be NONE. */
  function OrNone(u: Option<Urgency>): (r: Urgency)
    ensures u.None? ==> r == NONE
    ensures u.Some? ==> r == u.value
  {
    match u
    case None => NONE
    case Some(v) => v
  }

  /** The value lookup and Value are inverse to each other. */
  lemma ValueRoundTrip(u: Urgency)
    ensures FromValue(Value(u)) == Some(u)
  {
    match u
    case NONE =>
    case LOW =>
    case MODERATE =>
    case HIGH =>
    case SEVERE =>
  }

  /** Distinct levels have distinct values. */
  lemma ValueInjective(u: Urgency, w: Urgency)
    ensures Value(u) == Value(w) <==> u == w
  {
    ValueRoundTrip(u);
    ValueRoundTrip(w);
  }

  /** The values order the levels by increasing criticality. */
  lemma ValueOrder()
    ensures Value(NONE) < Value(LOW) < Value(MODERATE) < Value(HIGH) < Value(SEVERE)
  {
  }

  /** Storing a level by name loses nothing: reading the name back gives the level. */
  lemma NameRoundTrip(u: Urgency)
    ensures FromName(Name(u)) == Some(u)
  {
    match u
    case NONE =>
    case LOW =>
    case MODERATE =>
    case HIGH =>
    case SEVERE =>
  }

  /** Distinct levels are stored under distinct names. */
  lemma NameInjective(u: Urgency, w: Urgency)
    ensures Name(u) == Name(w) <==> u == w
  {
    NameRoundTrip(u);
    NameRoundTrip(w);
  }
}
