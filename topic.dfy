/**
 * The structural topic matcher the detector relies on (the `mqtt-pattern`
 * package's `matches` and `exec`, which are not part of this model and are
 * defined here with the behaviour the detector depends on).
 *
 * A pattern is split on `/` into segments. A segment `+name` is a named
 * single-level wildcard, `mqtt-pattern`'s extension of the `+` of MQTT 3.1.1
 * (section 4.7.1.3), where `+` alone fills a level and carries no name: it
 * matches any one non-empty topic level and binds it to `name`. MQTT's own
 * `+` also matches an empty level (`sport/+` matches `sport/`); this matcher,
 * like `mqtt-pattern`, rejects an empty level. Any other segment is a literal
 * that must equal the topic level at its position.
 */
module Topic {
  import opened Wrappers

  const Separator: char := '/'

  /** No `/` inside `s`. */
  predicate IsLevel(s: string) {
    Separator !in s
  }

  /**
   * JavaScript's `s.split('/')`: the text between consecutive separators,
   * so `""` gives `[""]` and `"a/"` gives `["a", ""]`.
   */
  function Split(s: string): (levels: seq<string>)
    ensures |levels| >= 1
    ensures forall i :: 0 <= i < |levels| ==> IsLevel(levels[i])
  {
    if s == [] then [""]
    else
      var rest := Split(s[1..]);
      if s[0] == Separator then [""] + rest
      else [[s[0]] + rest[0]] + rest[1..]
  }

  /** JavaScript's `levels.join('/')`. */
  function Join(levels: seq<string>): string {
    if |levels| == 0 then ""
    else if |levels| == 1 then levels[0]
    else levels[0] + [Separator] + Join(levels[1..])
  }

  /** Joining the pieces of a split gives back the text that was split. */
  lemma {:induction false} JoinSplit(s: string)
    ensures Join(Split(s)) == s
  {
    if s != [] {
      var rest := Split(s[1..]);
      JoinSplit(s[1..]);
      if s[0] == Separator {
        assert ([""] + rest)[1..] == rest;
      } else if |rest| > 1 {
        assert rest == [rest[0]] + rest[1..];
      }
    }
  }

  /** Joining a level in front of at least one more level puts a separator between them. */
  lemma JoinCons(level: string, rest: seq<string>)
    requires |rest| >= 1
    ensures Join([level] + rest) == level + [Separator] + Join(rest)
  {
    assert ([level] + rest)[1..] == rest;
  }

  /** Six levels join into the levels with five separators between them. */
  lemma JoinSix(a: string, b: string, c: string, d: string, e: string, f: string)
    ensures Join([a, b, c, d, e, f]) == a + "/" + b + "/" + c + "/" + d + "/" + e + "/" + f
  {
    JoinCons(e, [f]);
    assert [e, f] == [e] + [f];
    JoinCons(d, [e, f]);
    assert [d, e, f] == [d] + [e, f];
    JoinCons(c, [d, e, f]);
    assert [c, d, e, f] == [c] + [d, e, f];
    JoinCons(b, [c, d, e, f]);
    assert [b, c, d, e, f] == [b] + [c, d, e, f];
    JoinCons(a, [b, c, d, e, f]);
    assert [a, b, c, d, e, f] == [a] + [b, c, d, e, f];
  }

  /** Splitting a level followed by more text splits only the rest. */
  lemma {:induction false} SplitAfterLevel(level: string, t: string)
    requires IsLevel(level)
    ensures Split(level + t) == [level + Split(t)[0]] + Split(t)[1..]
  {
    var after := Split(t);
    if level == [] {
      assert level + t == t && level + after[0] == after[0];
      assert [after[0]] + after[1..] == after;
    } else {
      assert (level + t)[1..] == level[1..] + t;
      SplitAfterLevel(level[1..], t);
      assert [level[0]] + (level[1..] + after[0]) == level + after[0];
    }
  }

  /** Splitting a join of separator-free levels gives back the levels. */
  lemma {:induction false} SplitJoin(levels: seq<string>)
    requires |levels| >= 1
    requires forall i :: 0 <= i < |levels| ==> IsLevel(levels[i])
    ensures Split(Join(levels)) == levels
  {
    if |levels| == 1 {
      SplitAfterLevel(levels[0], "");
      assert levels[0] + "" == levels[0];
    } else {
      var tail := Join(levels[1..]);
      SplitJoin(levels[1..]);
      assert ([Separator] + tail)[1..] == tail;
      assert levels[0] + [Separator] + tail == levels[0] + ([Separator] + tail);
      SplitAfterLevel(levels[0], [Separator] + tail);
      assert levels[0] + "" == levels[0];
      assert levels == [levels[0]] + levels[1..];
    }
  }

  /** One segment of a pattern. */
  datatype Segment = Literal(text: string) | Variable(name: string)

  /** A segment that starts with `+` is a wildcard named by the rest of it. */
  function ParseSegment(s: string): Segment {
    if |s| > 0 && s[0] == '+' then Variable(s[1..]) else Literal(s)
  }

  /** The segments of a pattern, in order. */
  function Template(pattern: string): seq<Segment> {
    var parts := Split(pattern);
    seq(|parts|, i requires 0 <= i < |parts| => ParseSegment(parts[i]))
  }

  /** A literal matches only itself; a wildcard matches any non-empty level. */
  predicate SegmentMatches(segment: Segment, level: string) {
    match segment
    case Literal(text) => level == text
    case Variable(_) => level != ""
  }

  /**
   * `matches`, on a pattern and a topic already split: same number of levels,
   * and every level matched by the segment at its position.
   */
  function Matches(template: seq<Segment>, levels: seq<string>): (ok: bool)
    ensures ok <==>
      && |template| == |levels|
      && forall i :: 0 <= i < |levels| ==> SegmentMatches(template[i], levels[i])
  {
    if template == [] then levels == []
    else
      && levels != []
      && SegmentMatches(template[0], levels[0])
      && Matches(template[1..], levels[1..])
  }

  /** Segment `segment` binds parameter `key`: a `+` with a non-empty name (a bare `+` binds nothing). */
  predicate Binds(segment: Segment, key: string) {
    segment == Variable(key) && key != ""
  }

  /** No segment after position `i` binds `key` again. */
  predicate LastBinding(template: seq<Segment>, i: nat, key: string) {
    forall j :: i < j < |template| ==> !Binds(template[j], key)
  }

  /**
   * `exec`'s parameter extraction: every wildcard name bound to the level at
   * its position, visiting segments in order, so that a repeated name keeps
   * the last level bound to it.
   */
  function Extract(template: seq<Segment>, levels: seq<string>): (params: map<string, string>)
    requires |template| <= |levels|
    ensures forall key :: key in params <==> exists i :: 0 <= i < |template| && Binds(template[i], key)
    ensures forall i, key ::
      0 <= i < |template| && Binds(template[i], key) && LastBinding(template, i, key) ==>
        key in params && params[key] == levels[i]
  {
    if template == [] then map[]
    else
      var n := |template| - 1;
      var earlier := Extract(template[..n], levels);
      assert forall i :: 0 <= i < n ==> template[..n][i] == template[i];
      match template[n]
      case Variable(name) => if name != "" then earlier[name := levels[n]] else earlier
      case Literal(_) => earlier
  }

  /** `exec(pattern, topic)`: the bound parameters when the topic matches the pattern, nothing otherwise. */
  function Exec(pattern: string, topic: string): Option<map<string, string>> {
    var template, levels := Template(pattern), Split(topic);
    if Matches(template, levels) then Some(Extract(template, levels)) else None
  }

  /** A named wildcard that occurs once in a template is bound to exactly its own level. */
  lemma ExtractDistinct(template: seq<Segment>, levels: seq<string>, i: nat)
    requires |template| == |levels|
    requires i < |template| && template[i].Variable? && template[i].name != ""
    requires forall j :: 0 <= j < |template| && j != i ==> template[j] != template[i]
    ensures template[i].name in Extract(template, levels)
    ensures Extract(template, levels)[template[i].name] == levels[i]
  {
    assert Binds(template[i], template[i].name);
    assert LastBinding(template, i, template[i].name);
  }
}
