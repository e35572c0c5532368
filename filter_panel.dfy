/**
 * The URL-parameter rules of the filter panel: which tags are active, how
 * clicking a tag toggles it, and how a control's new value sets or clears
 * its parameter. Every handler starts from a copy of the current
 * parameters, so keys it does not touch keep their values.
 */
module FilterPanel {
  import opened Wrappers
  import opened Text

  /** The parameter that holds the comma-separated active tags. */
  const TagsKey := "tags"

  /** The list separator inside the `tags` parameter. */
  const Comma := ','

  /** A copy of the page's query parameters that a handler edits (`URLSearchParams`). */
  class QueryParams {
    var entries: map<string, string>

    constructor (init: map<string, string>)
      ensures entries == init
    {
      entries := init;
    }

    function Get(key: string): (v: Option<string>)
      reads this
      ensures v.Some? <==> key in entries
      ensures v.Some? ==> v.value == entries[key]
    {
      if key in entries then Some(entries[key]) else None
    }

    method Set(key: string, value: string)
      modifies this
      ensures entries == old(entries)[key := value]
    {
      entries := entries[key := value];
    }

    method Delete(key: string)
      modifies this
      ensures entries == old(entries) - {key}
    {
      entries := entries - {key};
    }
  }

  /** Maps `next` and `current` agree on every key other than `key`. */
  ghost predicate SameExcept(next: map<string, string>, current: map<string, string>, key: string) {
    forall k :: k != key ==> (k in next <==> k in current) && (k in next ==> next[k] == current[k])
  }

  // ---------------------------------------------------------------------
  // Active tags
  // ---------------------------------------------------------------------

  /**
   * `searchParams.get('tags')?.split(',') || []`: the comma-split of the
   * parameter, or [] when it is absent (an empty parameter gives [""]).
   */
  function ActiveTags(params: map<string, string>): (tags: seq<string>)
    ensures TagsKey !in params ==> tags == []
    ensures TagsKey in params ==> |tags| >= 1 && Join(tags, Comma) == params[TagsKey]
    ensures forall k :: 0 <= k < |tags| ==> Comma !in tags[k]
  {
    if TagsKey in params then
      JoinSplit(params[TagsKey], Comma);
      Split(params[TagsKey], Comma)
    else []
  }

  // ---------------------------------------------------------------------
  // Toggling a tag
  // ---------------------------------------------------------------------

  /** `tags.filter(t => t !== tag)`. */
  function Without(tags: seq<string>, tag: string): (r: seq<string>)
    ensures tag !in r
    decreases |tags|
  {
    if tags == [] then []
    else
      var rest := Without(tags[1..], tag);
      if tags[0] == tag then rest else [tags[0]] + rest
  }

  /** Removing a tag drops all its occurrences and keeps the count of every other tag. */
  lemma {:induction false} WithoutCounts(tags: seq<string>, tag: string)
    ensures multiset(Without(tags, tag)) == multiset(tags)[tag := 0]
    decreases |tags|
  {
    if tags != [] {
      WithoutCounts(tags[1..], tag);
      assert tags == [tags[0]] + tags[1..];
    }
  }

  /** Removing distributes over concatenation, so the kept tags stay in their order. */
  lemma {:induction false} WithoutAppend(a: seq<string>, b: seq<string>, tag: string)
    ensures Without(a + b, tag) == Without(a, tag) + Without(b, tag)
    decreases |a|
  {
    if a == [] {
      assert a + b == b;
    } else {
      var ab := a + b;
      assert ab != [] && ab[0] == a[0] && ab[1..] == a[1..] + b;
      WithoutAppend(a[1..], b, tag);
      var head: seq<string> := if a[0] == tag then [] else [a[0]];
      assert Without(ab, tag) == head + Without(a[1..] + b, tag);
      assert Without(a, tag) == head + Without(a[1..], tag);
    }
  }

  /** Removing a tag that is not there changes nothing. */
  lemma {:induction false} WithoutAbsent(tags: seq<string>, tag: string)
    requires tag !in tags
    ensures Without(tags, tag) == tags
    decreases |tags|
  {
    if tags != [] {
      WithoutAbsent(tags[1..], tag);
      assert tags == [tags[0]] + tags[1..];
    }
  }

  /** The tag list after a click: a selected tag is removed everywhere, another one appended. */
  function ToggleTag(current: seq<string>, tag: string): (next: seq<string>)
    ensures tag in current ==> tag !in next && multiset(next) == multiset(current)[tag := 0]
    ensures tag !in current ==> next == current + [tag]
  {
    WithoutCounts(current, tag);
    if tag in current then Without(current, tag) else current + [tag]
  }

  /** Clicking a tag that is not selected, and then clicking it again, restores the list. */
  lemma ToggleTwice(current: seq<string>, tag: string)
    requires tag !in current
    ensures ToggleTag(ToggleTag(current, tag), tag) == current
  {
    WithoutAppend(current, [tag], tag);
    WithoutAbsent(current, tag);
    assert Without([tag], tag) == [];
  }

  /** A non-empty toggled list of comma-free tags survives the join and the next split. */
  lemma ToggledTagsRoundTrip(current: seq<string>, tag: string)
    requires forall k :: 0 <= k < |current| ==> Comma !in current[k]
    ensures Comma !in tag && ToggleTag(current, tag) != [] ==>
      Split(Join(ToggleTag(current, tag), Comma), Comma) == ToggleTag(current, tag)
  {
    var newTags := ToggleTag(current, tag);
    if Comma !in tag && newTags != [] {
      forall k | 0 <= k < |newTags| ensures Comma !in newTags[k] {
        assert newTags[k] in multiset(newTags);
        assert newTags[k] in current || newTags[k] == tag;
      }
      SplitJoin(newTags, Comma);
    }
  }

  /** The parameters `handleTagClick(tag)` navigates to. */
  function TagClickParams(params: map<string, string>, tag: string): (next: map<string, string>)
    ensures SameExcept(next, params, TagsKey)
    ensures TagsKey in next <==> ToggleTag(ActiveTags(params), tag) != []
    ensures TagsKey in next ==> next[TagsKey] == Join(ToggleTag(ActiveTags(params), tag), Comma)
    ensures Comma !in tag ==> ActiveTags(next) == ToggleTag(ActiveTags(params), tag)
  {
    var newTags := ToggleTag(ActiveTags(params), tag);
    if |newTags| > 0 then
      ToggledTagsRoundTrip(ActiveTags(params), tag);
      params[TagsKey := Join(newTags, Comma)]
    else
      params - {TagsKey}
  }

  /** `handleTagClick(tagName)`: edit a copy of the parameters and return it for navigation. */
  method HandleTagClick(current: map<string, string>, tagName: string) returns (pushed: map<string, string>)
    ensures pushed == TagClickParams(current, tagName)
  {
    var params := new QueryParams(current);
    var currentTags: seq<string> := [];
    var tags := params.Get(TagsKey);
    if tags.Some? {
      currentTags := Split(tags.value, Comma);
    }
    var newTags;
    if tagName in currentTags {
      newTags := Without(currentTags, tagName);
    } else {
      newTags := currentTags + [tagName];
    }
    if |newTags| > 0 {
      params.Set(TagsKey, Join(newTags, Comma));
    } else {
      params.Delete(TagsKey);
    }
    pushed := params.entries;
  }

  /**
   * Two clicks on a tag that is not selected give back the same
   * parameters, provided the tag name has no comma in it.
   */
  lemma TagClickTwice(params: map<string, string>, tag: string)
    requires Comma !in tag
    requires tag !in ActiveTags(params)
    ensures TagClickParams(TagClickParams(params, tag), tag) == params
  {
    var current := ActiveTags(params);
    var once := TagClickParams(params, tag);
    ToggleTwice(current, tag);
    var twice := TagClickParams(once, tag);
    assert ActiveTags(twice) == current;
    SameExceptBack(twice, once, params);
    if current == [] {
      assert TagsKey !in twice && TagsKey !in params;
    } else {
      assert twice[TagsKey] == params[TagsKey] by {
        assert Join(ActiveTags(twice), Comma) == twice[TagsKey];
      }
    }
    SameExceptEqual(twice, params);
  }

  /** Two edits of the tags parameter leave the other keys as they started. */
  lemma SameExceptBack(c: map<string, string>, b: map<string, string>, a: map<string, string>)
    requires SameExcept(c, b, TagsKey) && SameExcept(b, a, TagsKey)
    ensures SameExcept(c, a, TagsKey)
  {
  }

  /** Maps that agree away from the tags parameter and on it are equal. */
  lemma SameExceptEqual(m: map<string, string>, n: map<string, string>)
    requires SameExcept(m, n, TagsKey)
    requires TagsKey in m <==> TagsKey in n
    requires TagsKey in m ==> m[TagsKey] == n[TagsKey]
    ensures m == n
  {
    assert m.Keys == n.Keys;
  }

  // ---------------------------------------------------------------------
  // Setting a filter parameter
  // ---------------------------------------------------------------------

  /** A control's new value: a string, a number or `null`. */
  datatype FilterValue = Text(s: string) | Number(n: int) | Null

  /** JavaScript truthiness: "", 0 and `null` are falsy. */
  predicate Truthy(v: FilterValue) {
    match v
    case Text(s) => s != ""
    case Number(n) => n != 0
    case Null => false
  }

  /** `String(value)`. */
  function Stringify(v: FilterValue): string {
    match v
    case Text(s) => s
    case Number(n) => IntToDecimal(n)
    case Null => "null"
  }

  /** `handleFilterChange(key, value)`: set the key to the value's text when truthy, else delete it. */
  method HandleFilterChange(current: map<string, string>, key: string, value: FilterValue)
    returns (pushed: map<string, string>)
    ensures Truthy(value) ==> key in pushed && pushed[key] == Stringify(value)
    ensures !Truthy(value) ==> key !in pushed
    ensures SameExcept(pushed, current, key)
  {
    var params := new QueryParams(current);
    if Truthy(value) {
      params.Set(key, Stringify(value));
    } else {
      params.Delete(key);
    }
    pushed := params.entries;
  }

  /** `String(n)` of a positive integer is its decimal numeral: its digits read back as `n`. */
  lemma NumberParamReadsBack(n: int)
    requires n > 0
    ensures ParseDecimal(Stringify(Number(n))) == Some(n)
  {
    DecimalRoundTrip(n);
  }
}
