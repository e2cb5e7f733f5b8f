/** The keyword-to-event-type lookup of server/replay_service.py (`parse_event_type`), used by the
    playlist routes of the HTTP service. */
module ReplayService {
  import opened Text
  import opened ReplayController

  /** The keywords the service understands, each naming one event type. */
  const TypeKeywords: map<string, EventType> :=
    map["match" := Match, "stage" := Stage, "season" := Season, "tournament" := Tournament]

  /** The keyword a request body carries when it names no event type. */
  const DefaultKeyword: string := "match"

  /** `parse_event_type`: look the lower-cased text up among the keywords; anything else is a
      match. It is total and always yields an "sr:" type. */
  function ParseEventType(text: string): (t: EventType)
    ensures Lower(text) !in TypeKeywords ==> t == Match
    ensures t.Value()[..3] == "sr:"
  {
    var key := Lower(text);
    if key in TypeKeywords then TypeKeywords[key] else Match
  }

  /** A keyword selects its own type: the keywords are exactly the kinds of the event types,
      which are also the type parts of the summary and timeline paths. */
  lemma KeywordsSelectTypes(t: EventType)
    ensures t.Kind() in TypeKeywords && TypeKeywords[t.Kind()] == t
    ensures ParseEventType(t.Kind()) == t
  {
    match t
    case Match => LowerUnchangedOnLowercase("match");
    case Stage => LowerUnchangedOnLowercase("stage");
    case Season => LowerUnchangedOnLowercase("season");
    case Tournament => LowerUnchangedOnLowercase("tournament");
  }

  lemma UrnTypeParsesBack(t: EventType)
    ensures ParseEventType(UrnType(t)) == t
  {
    KeywordsSelectTypes(t);
  }

  /** Lower-case letters are left alone by lower-casing. */
  lemma LowerUnchangedOnLowercase(s: string)
    requires forall i :: 0 <= i < |s| ==> 'a' <= s[i] <= 'z'
    ensures Lower(s) == s
  {
  }

  /** The lookup ignores case: text equal up to the case of its letters gives the same type, and
      so does the lower-cased text itself. */
  lemma ParseIgnoresCase(text: string, other: string)
    requires EqualIgnoringCase(text, other)
    ensures ParseEventType(text) == ParseEventType(other)
  {
    LowerRespectsCase(text, other);
  }

  lemma ParseOfLowered(text: string)
    ensures ParseEventType(Lower(text)) == ParseEventType(text)
  {
    LowerIdempotent(text);
  }

  /** Only a keyword, in any case, selects a type other than the default. */
  lemma {:induction false} OnlyKeywordsSelect(text: string)
    ensures ParseEventType(text) == Match || ParseEventType(text).Kind() == Lower(text)
  {
    var t := ParseEventType(text);
    if t != Match {
      assert Lower(text) in TypeKeywords;
      KeywordsSelectTypes(t);
      assert TypeKeywords[Lower(text)] == t;
    }
  }

  /** The request default "match" yields the type "sr:match". */
  lemma DefaultIsMatch()
    ensures ParseEventType(DefaultKeyword) == Match && ParseEventType(DefaultKeyword).Value() == "sr:match"
  {
    KeywordsSelectTypes(Match);
  }
}
