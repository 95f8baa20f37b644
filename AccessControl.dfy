/** The allow-list of Telegram user IDs for the `/order` command, read from
    the `ALLOWED_USER_IDS` environment variable (a comma-separated list of
    IDs). The variable's value is a parameter: an unset variable is the empty
    string. The parsed set is cached in one `AllowList` object, standing for
    the module-level cache variable. */
module AccessControl {
  import opened Wrappers
  import opened Text

  /** The ID one comma-separated field grants: its stripped text read as an
      integer when that text is all digits, nothing otherwise. */
  function FieldId(field: string): (id: Option<int>)
    ensures id.Some? ==> id.value >= 0
  {
    var text := Strip(field);
    if IsDigits(text) then Some(DecimalValue(text)) else None
  }

  /** The set comprehension over the fields of the variable's value. */
  function ParseIds(env: string): set<int>
  {
    set f | f in Split(env, ',') && FieldId(f).Some? :: FieldId(f).value
  }

  /** The IDs a value of the variable grants: none when it is empty,
      otherwise the parsed set. */
  function AllowedIds(env: string): (ids: set<int>)
    ensures forall n :: n in ids ==> n >= 0
  {
    if env == "" then {} else ParseIds(env)
  }

  /** The cache of the parsed set, empty until the first lookup. */
  class AllowList {
    var cache: Option<set<int>>

    constructor ()
      ensures cache == None
    {
      cache := None;
    }

    /** `get_allowed_user_ids`: the cached set when there is one, otherwise
        the set parsed from `env`, which becomes the cache. */
    method GetAllowedUserIds(env: string) returns (ids: set<int>)
      modifies this
      ensures old(cache).Some? ==> cache == old(cache)
      ensures old(cache).None? ==> cache == Some(AllowedIds(env))
      ensures cache == Some(ids)
    {
      if cache.Some? {
        return cache.value;
      }
      if env == "" {
        cache := Some({});
        return cache.value;
      }
      ids := ParseIds(env);
      cache := Some(ids);
    }

    /** `is_user_allowed`: membership in the (possibly cached) set; an empty
        set denies everyone. */
    method IsUserAllowed(env: string, userId: int) returns (allowed: bool)
      modifies this
      ensures old(cache).Some? ==> cache == old(cache)
      ensures old(cache).None? ==> cache == Some(AllowedIds(env))
      ensures cache.Some? && (allowed <==> userId in cache.value)
    {
      var ids := GetAllowedUserIds(env);
      if ids == {} {
        return false;
      }
      allowed := userId in ids;
    }

    /** `reload_allowed_user_ids`: forgets the cache, so that the next lookup
        parses the variable again. */
    method ReloadAllowedUserIds()
      modifies this
      ensures cache == None
    {
      cache := None;
    }
  }

  // ------------------------------------------------------------ properties

  /** The empty value grants nobody, and the parse alone would give the same:
      the early return for an empty value only saves work. */
  lemma EmptyValueGrantsNobody()
    ensures AllowedIds("") == {}
    ensures ParseIds("") == {}
  {
    assert Split("", ',') == [""];
  }

  /** Whitespace around an ID does not matter. */
  lemma FieldIdPadded(pre: string, field: string, post: string)
    requires AllSpace(pre) && AllSpace(post)
    ensures FieldId(pre + field + post) == FieldId(field)
  {
    StripPadded(pre, field, post);
  }

  /** A leading minus sign makes a field be skipped: negative IDs are never
      granted, not even when the digits after the sign form an ID. */
  lemma SignedFieldSkipped(digits: string)
    ensures FieldId("-" + digits) == None
  {
    var s := "-" + digits;
    assert !IsSpace(s[0]);
    assert StripLeft(s) == s;
    assert StripRight(s)[0] == '-';
  }

  /** A field holding the decimal digits of `n` grants `n`. */
  lemma FieldIdOfDigits(n: nat)
    ensures FieldId(DecimalDigits(n)) == Some(n)
  {
    var s := DecimalDigits(n);
    assert !IsSpace(s[0]) && !IsSpace(s[|s| - 1]);
    assert StripLeft(s) == s;
    assert StripRight(s) == s;
  }

  /** The IDs of `a,b` are those of `a` together with those of `b`: the order
      of the fields does not matter. */
  lemma ParseIdsConcat(a: string, b: string)
    ensures ParseIds(a + "," + b) == ParseIds(a) + ParseIds(b)
  {
    SplitAppend(a, b, ',');
  }

  /** An ID repeated in the list is granted once: appending an ID already
      granted changes nothing, and appending a new one adds exactly it. */
  lemma AppendId(env: string, n: nat)
    ensures ParseIds(env + "," + DecimalDigits(n)) == ParseIds(env) + {n}
  {
    ParseIdsConcat(env, DecimalDigits(n));
    SplitSingleField(DecimalDigits(n), ',');
    FieldIdOfDigits(n);
  }

  /** The decimal texts of a list of IDs. */
  function Render(ids: seq<nat>): (fields: seq<string>)
    ensures |fields| == |ids|
    ensures forall i :: 0 <= i < |ids| ==> fields[i] == DecimalDigits(ids[i])
  {
    if ids == [] then [] else [DecimalDigits(ids[0])] + Render(ids[1..])
  }

  /** The IDs of a list, as a set. */
  function IdSet(ids: seq<nat>): (r: set<int>)
    ensures forall n: int :: n in r <==> n >= 0 && n as nat in ids
  {
    if ids == [] then {} else {ids[0] as int} + IdSet(ids[1..])
  }

  /** Writing a non-empty list of IDs as `id,id,...` and parsing it back
      grants exactly the IDs of the list. */
  lemma {:induction false} ParseJoined(ids: seq<nat>)
    requires ids != []
    ensures AllowedIds(Join(Render(ids), ",")) == IdSet(ids)
  {
    var fields := Render(ids);
    SplitSingleField(fields[0], ',');
    FieldIdOfDigits(ids[0]);
    if |ids| == 1 {
      assert fields[0] != "";
    } else {
      ParseJoined(ids[1..]);
      var rest := Join(fields[1..], ",");
      assert Render(ids[1..]) == fields[1..];
      assert Join(fields, ",") == fields[0] + "," + rest;
      ParseIdsConcat(fields[0], rest);
    }
  }
}
