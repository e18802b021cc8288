/**
 * The rules of `JsonSchemaValidator` that descend into an object's members or
 * an array's elements, and the child errors they wrap sub-results in, stated
 * about the ValidatorSpec functions.
 */
module NestedRules {
  import opened JsonModel
  import opened SchemaModel
  import opened Validation
  import opened StringUtil
  import opened ValidatorSpec
  import opened ValidatorProperties

  /** `inner` occurs in `outer` as a contiguous run. */
  ghost predicate Segment(outer: seq<ValidationError>, inner: seq<ValidationError>) {
    exists a, b :: outer == a + inner + b
  }

  lemma SegmentOf(head: seq<ValidationError>, a: seq<ValidationError>, inner: seq<ValidationError>, b: seq<ValidationError>,
                  rest: seq<ValidationError>)
    ensures Segment(head + (a + inner + b) + rest, inner)
  {
    assert head + (a + inner + b) + rest == (head + a) + inner + (b + rest);
  }

  lemma InMiddle(e: ValidationError, head: seq<ValidationError>, middle: seq<ValidationError>, rest: seq<ValidationError>)
    requires e in middle
    ensures e in head + middle + rest
  {
  }

  lemma InPrefix(e: ValidationError, a: seq<ValidationError>, b: seq<ValidationError>)
    requires e in a && a <= b
    ensures e in b
  {
    var i :| 0 <= i < |a| && a[i] == e;
    assert b[i] == e;
  }

  // ----- child errors ---------------------------------------------------------------------------

  /** `TryCreateChildSchemaError`: a child error exists exactly when the child schema reports
      something, and then it maps exactly that schema to exactly those errors. */
  lemma ChildErrorOnlyWhenFailing(env: Env, child: Schema, t: Json, kind: ErrorKind, property: Option<string>, path: string,
                                  loc: seq<Step>)
    ensures TryChild(env, child, t, kind, property, path, loc).None? <==> Validate(env, child, t, None, Some(path), loc) == []
    ensures TryChild(env, child, t, kind, property, path, loc).Some? ==>
      TryChild(env, child, t, kind, property, path, loc)
      == Some(NewChildError(kind, property, Some(path), [Branch(child, Validate(env, child, t, None, Some(path), loc))]))
    ensures TryChild(env, child, t, kind, property, path, loc).Some? ==>
      TryChild(env, child, t, kind, property, path, loc).value.path == "#/" + path
  {
  }

  /** The top-level result ends with what `ValidateProperties` reports. */
  lemma ValidateEndsWithProperties(env: Env, s: Schema, t: Json, name: Option<string>, path: Option<string>, loc: seq<Step>)
    returns (head: seq<ValidationError>)
    ensures Validate(env, s, t, name, path, loc) == head + PropertiesErrors(env, s, t, name, path, loc)
  {
    head := CompositionErrors(env, s, AnyOfRule, t, name, path, loc)
      + CompositionErrors(env, s, AllOfRule, t, name, path, loc)
      + CompositionErrors(env, s, OneOfRule, t, name, path, loc)
      + NotErrors(env, s, t, name, path, loc)
      + TypeErrors(env, s, t, name, path, loc)
      + EnumErrors(env, s, t, name, path);
  }

  // ----- declared properties ----------------------------------------------------------------------

  lemma {:induction false} DeclaredPrefix(env: Env, s: Schema, t: Json, path: Option<string>, loc: seq<Step>, m: nat, n: nat)
    requires m <= n <= |s.properties|
    ensures DeclaredErrors(env, s, t, path, loc, m) <= DeclaredErrors(env, s, t, path, loc, n)
  {
    if m < n {
      DeclaredPrefix(env, s, t, path, loc, m, n - 1);
      PrefixExtend(DeclaredErrors(env, s, t, path, loc, m), DeclaredErrors(env, s, t, path, loc, n - 1),
                   DeclaredError(env, s, t, path, loc, n - 1));
    }
  }

  /** A prefix of a list is a prefix of any extension of it. */
  lemma PrefixExtend<T>(a: seq<T>, b: seq<T>, c: seq<T>)
    requires a <= b
    ensures a <= b + c
  {
  }

  /** Declared property k's own errors sit in the declared-properties loop's result, in place. */
  lemma DeclaredSegment(env: Env, s: Schema, t: Json, path: Option<string>, loc: seq<Step>, k: nat)
    returns (a: seq<ValidationError>, b: seq<ValidationError>)
    requires k < |s.properties|
    ensures DeclaredErrors(env, s, t, path, loc, |s.properties|) == a + DeclaredError(env, s, t, path, loc, k) + b
  {
    a := DeclaredErrors(env, s, t, path, loc, k);
    b := DeclaredAfter(env, s, t, path, loc, k + 1);
    // The same equation as terms, so that the solver need not compare the lists element by element.
    assert Some(DeclaredErrors(env, s, t, path, loc, |s.properties|)) == Some(a + DeclaredError(env, s, t, path, loc, k) + b);
  }

  /** The loop's result continues the errors of its first m rounds (an equation between terms, as above). */
  lemma DeclaredAfter(env: Env, s: Schema, t: Json, path: Option<string>, loc: seq<Step>, m: nat) returns (b: seq<ValidationError>)
    requires m <= |s.properties|
    ensures Some(DeclaredErrors(env, s, t, path, loc, |s.properties|)) == Some(DeclaredErrors(env, s, t, path, loc, m) + b)
  {
    var all := DeclaredErrors(env, s, t, path, loc, |s.properties|);
    var upTo := DeclaredErrors(env, s, t, path, loc, m);
    DeclaredPrefix(env, s, t, path, loc, m, |s.properties|);
    b := all[|upTo|..];
    PrefixSplit(upTo, all);
  }

  /** A list splits after any prefix of it. */
  lemma PrefixSplit<T>(x: seq<T>, y: seq<T>)
    requires x <= y
    ensures y == x + y[|x|..]
  {
  }

  /** `ValidateProperties` reports the declared-properties loop's errors first. */
  lemma PropertiesStartWithDeclared(env: Env, s: Schema, t: Json, name: Option<string>, path: Option<string>, loc: seq<Step>)
    returns (rest: seq<ValidationError>)
    ensures PropertiesErrors(env, s, t, name, path, loc) == DeclaredErrors(env, s, t, path, loc, |s.properties|) + rest
  {
    rest := if t.JObject? then MemberErrors(env, s, t.members, name, path, loc) else [];
  }

  /** What the loop reports for one declared property: its own validation when the object has it,
      PropertyRequired when it is missing and required, nothing otherwise. */
  lemma DeclaredErrorCases(env: Env, s: Schema, t: Json, path: Option<string>, loc: seq<Step>, k: nat)
    requires k < |s.properties|
    ensures var key := s.properties[k].key;
      t.JObject? && Lookup(t.members, key).Some? ==>
        DeclaredError(env, s, t, path, loc, k)
        == Validate(env, s.properties[k].schema, Lookup(t.members, key).value, Some(key), Some(ChildPath(path, key)), loc + [Key(key)])
    ensures var key := s.properties[k].key;
      !(t.JObject? && Lookup(t.members, key).Some?) ==>
        DeclaredError(env, s, t, path, loc, k) == Check(IsRequired(s, key), PropertyRequired, Some(key), Some(ChildPath(path, key)))
  {
  }

  /** A declared, required property the token lacks (every declared property, when the token is
      not an object) is reported as PropertyRequired, with its name and the path `parent.key`
      (just `key` at the root). */
  lemma RequiredReported(env: Env, s: Schema, t: Json, name: Option<string>, path: Option<string>, loc: seq<Step>, k: nat)
    requires k < |s.properties| && IsRequired(s, s.properties[k].key)
    requires !t.JObject? || Lookup(t.members, s.properties[k].key).None?
    ensures NewError(PropertyRequired, Some(s.properties[k].key), Some(ChildPath(path, s.properties[k].key)))
      in Validate(env, s, t, name, path, loc)
  {
    var key := s.properties[k].key;
    var e := NewError(PropertyRequired, Some(key), Some(ChildPath(path, key)));
    DeclaredErrorCases(env, s, t, path, loc, k);
    var a, b := DeclaredSegment(env, s, t, path, loc, k);
    InMiddle(e, a, DeclaredError(env, s, t, path, loc, k), b);
    var rest := PropertiesStartWithDeclared(env, s, t, name, path, loc);
    var head := ValidateEndsWithProperties(env, s, t, name, path, loc);
    InMiddle(e, head, DeclaredErrors(env, s, t, path, loc, |s.properties|), rest);
  }

  /** A declared property the object token has is validated against the property's schema, with
      the property's name and path, and all of its errors are reported, in place. */
  lemma PresentValidated(env: Env, s: Schema, t: Json, name: Option<string>, path: Option<string>, loc: seq<Step>, k: nat)
    requires k < |s.properties| && t.JObject? && Lookup(t.members, s.properties[k].key).Some?
    ensures var key := s.properties[k].key;
      Segment(Validate(env, s, t, name, path, loc),
              Validate(env, s.properties[k].schema, Lookup(t.members, key).value, Some(key), Some(ChildPath(path, key)),
                       loc + [Key(key)]))
  {
    var key := s.properties[k].key;
    var inner := Validate(env, s.properties[k].schema, Lookup(t.members, key).value, Some(key), Some(ChildPath(path, key)),
                          loc + [Key(key)]);
    DeclaredErrorCases(env, s, t, path, loc, k);
    var a, b := DeclaredSegment(env, s, t, path, loc, k);
    var rest := PropertiesStartWithDeclared(env, s, t, name, path, loc);
    var head := ValidateEndsWithProperties(env, s, t, name, path, loc);
    assert Validate(env, s, t, name, path, loc) == head + (a + inner + b) + rest;
    SegmentOf(head, a, inner, b, rest);
  }

  // ----- undeclared members -----------------------------------------------------------------------

  /** The top-level result of an object token ends with what the member checks report. */
  lemma ValidateEndsWithMembers(env: Env, s: Schema, members: seq<Member>, name: Option<string>, path: Option<string>,
                                loc: seq<Step>) returns (head: seq<ValidationError>)
    ensures Validate(env, s, JObject(members), name, path, loc) == head + MemberErrors(env, s, members, name, path, loc)
  {
    var h := ValidateEndsWithProperties(env, s, JObject(members), name, path, loc);
    head := h + DeclaredErrors(env, s, JObject(members), path, loc, |s.properties|);
  }

  /** An undeclared member no pattern matches, with no additional-properties schema and additional
      properties not allowed, is reported as NoAdditionalPropertiesAllowed, with its name and path. */
  lemma NoAdditionalReported(env: Env, s: Schema, members: seq<Member>, name: Option<string>, path: Option<string>,
                             loc: seq<Step>, m: Member)
    requires m in members && !Declares(s, m.name) && FirstPattern(env, s, m.name).None?
    requires s.additionalPropertiesSchema.None? && !s.allowAdditionalProperties
    ensures NewError(NoAdditionalPropertiesAllowed, Some(m.name), Some(ChildPath(path, m.name)))
      in Validate(env, s, JObject(members), name, path, loc)
  {
    var undeclared := Undeclared(s, members);
    var u := Unmatched(env, s, undeclared);
    assert m in undeclared;
    assert m in u;
    var j :| 0 <= j < |u| && u[j] == m;
    assert AdditionalErrors(env, s, u, path, loc)[j]
        == NewError(NoAdditionalPropertiesAllowed, Some(m.name), Some(ChildPath(path, m.name)));
    var head := ValidateEndsWithMembers(env, s, members, name, path, loc);
  }

  lemma {:induction false} UnmatchedNone(env: Env, s: Schema, members: seq<Member>)
    requires forall i :: 0 <= i < |members| ==> FirstPattern(env, s, members[i].name).Some?
    ensures Unmatched(env, s, members) == []
  {
    if members != [] {
      UnmatchedNone(env, s, members[..|members| - 1]);
    }
  }

  /** When a pattern matches every undeclared member, no additional-properties check runs. */
  lemma PatternsLeaveNoAdditional(env: Env, s: Schema, members: seq<Member>, path: Option<string>, loc: seq<Step>)
    requires forall m :: m in members && !Declares(s, m.name) ==> FirstPattern(env, s, m.name).Some?
    ensures AdditionalErrors(env, s, Unmatched(env, s, Undeclared(s, members)), path, loc) == []
  {
    var undeclared := Undeclared(s, members);
    assert forall i :: 0 <= i < |undeclared| ==> undeclared[i] in undeclared;
    UnmatchedNone(env, s, undeclared);
  }

  lemma {:induction false} PatternPrefix(env: Env, s: Schema, members: seq<Member>, loc: seq<Step>, m: nat, n: nat)
    requires m <= n <= |members|
    ensures PatternErrors(env, s, members, loc, m) <= PatternErrors(env, s, members, loc, n)
  {
    if m < n {
      PatternPrefix(env, s, members, loc, m, n - 1);
    }
  }

  /** The member checks: property counts, then pattern properties over the undeclared members,
      then additional properties over those no pattern matched. */
  lemma MemberParts(env: Env, s: Schema, members: seq<Member>, name: Option<string>, path: Option<string>, loc: seq<Step>)
    ensures var undeclared := Undeclared(s, members);
      MemberErrors(env, s, members, name, path, loc)
      == PropertyCountErrors(s, members, name, path) + PatternErrors(env, s, undeclared, loc, |undeclared|)
         + AdditionalErrors(env, s, Unmatched(env, s, undeclared), path, loc)
  {
  }

  /** An error of the member checks is reported for the object token. */
  lemma InMembers(e: ValidationError, env: Env, s: Schema, members: seq<Member>, name: Option<string>, path: Option<string>,
                  loc: seq<Step>)
    requires e in MemberErrors(env, s, members, name, path, loc)
    ensures e in Validate(env, s, JObject(members), name, path, loc)
  {
    var head := ValidateEndsWithMembers(env, s, members, name, path, loc);
  }

  /** An undeclared member that a pattern matches is validated against the first matching pattern's
      schema; when that fails, an AdditionalPropertiesNotValid child error maps the pattern's schema
      to the failures. */
  lemma PatternReported(env: Env, s: Schema, members: seq<Member>, name: Option<string>, path: Option<string>,
                        loc: seq<Step>, m: Member)
    requires m in members && !Declares(s, m.name) && FirstPattern(env, s, m.name).Some?
    requires var at := loc + [Key(m.name)];
      Validate(env, s.patternProperties[FirstPattern(env, s, m.name).value].schema, m.value, None, Some(env.tokenPath(at)), at) != []
    ensures var at := loc + [Key(m.name)];
      var schema := s.patternProperties[FirstPattern(env, s, m.name).value].schema;
      NewChildError(AdditionalPropertiesNotValid, Some(m.name), Some(env.tokenPath(at)),
                    [Branch(schema, Validate(env, schema, m.value, None, Some(env.tokenPath(at)), at))])
        in Validate(env, s, JObject(members), name, path, loc)
  {
    var e := PatternListed(env, s, members, loc, m);
    var undeclared := Undeclared(s, members);
    MemberParts(env, s, members, name, path, loc);
    InMiddle(e, PropertyCountErrors(s, members, name, path), PatternErrors(env, s, undeclared, loc, |undeclared|),
             AdditionalErrors(env, s, Unmatched(env, s, undeclared), path, loc));
    InMembers(e, env, s, members, name, path, loc);
  }

  /** The pattern-properties loop over the undeclared members lists that child error. */
  lemma PatternListed(env: Env, s: Schema, members: seq<Member>, loc: seq<Step>, m: Member) returns (e: ValidationError)
    requires m in members && !Declares(s, m.name) && FirstPattern(env, s, m.name).Some?
    requires var at := loc + [Key(m.name)];
      Validate(env, s.patternProperties[FirstPattern(env, s, m.name).value].schema, m.value, None, Some(env.tokenPath(at)), at) != []
    ensures var at := loc + [Key(m.name)];
      var schema := s.patternProperties[FirstPattern(env, s, m.name).value].schema;
      Some(e) == Some(NewChildError(AdditionalPropertiesNotValid, Some(m.name), Some(env.tokenPath(at)),
                                    [Branch(schema, Validate(env, schema, m.value, None, Some(env.tokenPath(at)), at))]))
    ensures e in PatternErrors(env, s, Undeclared(s, members), loc, |Undeclared(s, members)|)
  {
    e := PatternErrorOf(env, s, m, loc);
    var undeclared := Undeclared(s, members);
    assert m in undeclared;
    var j :| 0 <= j < |undeclared| && undeclared[j] == m;
    InPatternErrors(e, env, s, undeclared, loc, j);
  }

  /** A failing pattern check of m yields exactly one error (equations between terms, as above). */
  lemma PatternErrorOf(env: Env, s: Schema, m: Member, loc: seq<Step>) returns (e: ValidationError)
    requires !Declares(s, m.name) && FirstPattern(env, s, m.name).Some?
    requires var at := loc + [Key(m.name)];
      Validate(env, s.patternProperties[FirstPattern(env, s, m.name).value].schema, m.value, None, Some(env.tokenPath(at)), at) != []
    ensures var at := loc + [Key(m.name)];
      var schema := s.patternProperties[FirstPattern(env, s, m.name).value].schema;
      Some(e) == Some(NewChildError(AdditionalPropertiesNotValid, Some(m.name), Some(env.tokenPath(at)),
                                    [Branch(schema, Validate(env, schema, m.value, None, Some(env.tokenPath(at)), at))]))
    ensures Some(PatternError(env, s, m, loc)) == Some([e])
  {
    var at := loc + [Key(m.name)];
    var schema := s.patternProperties[FirstPattern(env, s, m.name).value].schema;
    ChildErrorOnlyWhenFailing(env, schema, m.value, AdditionalPropertiesNotValid, Some(m.name), env.tokenPath(at), at);
    var c := TryChild(env, schema, m.value, AdditionalPropertiesNotValid, Some(m.name), env.tokenPath(at), at);
    e := c.value;
  }

  /** The single pattern error of remaining member j is reported. */
  lemma InPatternErrors(e: ValidationError, env: Env, s: Schema, u: seq<Member>, loc: seq<Step>, j: nat)
    requires j < |u| && Some(PatternError(env, s, u[j], loc)) == Some([e])
    ensures e in PatternErrors(env, s, u, loc, |u|)
  {
    assert Some(PatternErrors(env, s, u, loc, j + 1)) == Some(PatternErrors(env, s, u, loc, j) + [e]);
    PatternPrefix(env, s, u, loc, j + 1, |u|);
    InPrefix(e, PatternErrors(env, s, u, loc, j + 1), PatternErrors(env, s, u, loc, |u|));
  }

  lemma {:induction false} AdditionalSchemaPrefix(env: Env, s: Schema, members: seq<Member>, loc: seq<Step>, m: nat, n: nat)
    requires s.additionalPropertiesSchema.Some? && m <= n <= |members|
    ensures AdditionalSchemaErrors(env, s, members, loc, m) <= AdditionalSchemaErrors(env, s, members, loc, n)
  {
    if m < n {
      AdditionalSchemaPrefix(env, s, members, loc, m, n - 1);
    }
  }

  /** An error of remaining member j's check against the additional-properties schema is reported. */
  lemma InAdditional(e: ValidationError, env: Env, s: Schema, u: seq<Member>, path: Option<string>, loc: seq<Step>, j: nat)
    requires s.additionalPropertiesSchema.Some? && j < |u|
    requires e in AdditionalSchemaError(env, s, u[j], loc)
    ensures e in AdditionalErrors(env, s, u, path, loc)
  {
    assert AdditionalSchemaErrors(env, s, u, loc, j + 1) == AdditionalSchemaErrors(env, s, u, loc, j) + AdditionalSchemaError(env, s, u[j], loc);
    AdditionalSchemaPrefix(env, s, u, loc, j + 1, |u|);
    InPrefix(e, AdditionalSchemaErrors(env, s, u, loc, j + 1), AdditionalSchemaErrors(env, s, u, loc, |u|));
  }

  /** An undeclared member no pattern matches is validated against the additional-properties schema,
      when there is one; when that fails, an AdditionalPropertiesNotValid child error maps that
      schema to the failures. */
  lemma AdditionalSchemaReported(env: Env, s: Schema, members: seq<Member>, name: Option<string>, path: Option<string>,
                                 loc: seq<Step>, m: Member)
    requires m in members && !Declares(s, m.name) && FirstPattern(env, s, m.name).None?
    requires s.additionalPropertiesSchema.Some?
    requires var at := loc + [Key(m.name)];
      Validate(env, s.additionalPropertiesSchema.value, m.value, None, Some(env.tokenPath(at)), at) != []
    ensures var at := loc + [Key(m.name)];
      var schema := s.additionalPropertiesSchema.value;
      NewChildError(AdditionalPropertiesNotValid, Some(m.name), Some(env.tokenPath(at)),
                    [Branch(schema, Validate(env, schema, m.value, None, Some(env.tokenPath(at)), at))])
        in Validate(env, s, JObject(members), name, path, loc)
  {
    var at := loc + [Key(m.name)];
    var schema := s.additionalPropertiesSchema.value;
    ChildErrorOnlyWhenFailing(env, schema, m.value, AdditionalPropertiesNotValid, Some(m.name), env.tokenPath(at), at);
    var c := TryChild(env, schema, m.value, AdditionalPropertiesNotValid, Some(m.name), env.tokenPath(at), at);
    assert AdditionalSchemaError(env, s, m, loc) == [c.value];
    var undeclared := Undeclared(s, members);
    var u := Unmatched(env, s, undeclared);
    assert m in undeclared;
    assert m in u;
    var j :| 0 <= j < |u| && u[j] == m;
    InAdditional(c.value, env, s, u, path, loc, j);
    MemberParts(env, s, members, name, path, loc);
    InMiddle(c.value, PropertyCountErrors(s, members, name, path) + PatternErrors(env, s, undeclared, loc, |undeclared|),
             AdditionalErrors(env, s, u, path, loc), []);
    InMembers(c.value, env, s, members, name, path, loc);
  }

  // ----- array elements ---------------------------------------------------------------------------

  lemma {:induction false} ItemsPrefix(env: Env, s: Schema, items: seq<Json>, path: Option<string>, loc: seq<Step>, m: nat, n: nat)
    requires m <= n <= |items|
    ensures ItemsErrors(env, s, items, path, loc, m) <= ItemsErrors(env, s, items, path, loc, n)
  {
    if m < n {
      ItemsPrefix(env, s, items, path, loc, m, n - 1);
    }
  }

  /** Element i's errors sit in the element loop's result, in place. */
  lemma ItemSegment(env: Env, s: Schema, items: seq<Json>, path: Option<string>, loc: seq<Step>, i: nat)
    returns (a: seq<ValidationError>, b: seq<ValidationError>)
    requires i < |items|
    ensures ItemsErrors(env, s, items, path, loc, |items|) == a + ItemErrors(env, s, items[i], i, path, loc + [Index(i)]) + b
  {
    var n := |items|;
    ItemsPrefix(env, s, items, path, loc, i + 1, n);
    var upTo := ItemsErrors(env, s, items, path, loc, i + 1);
    a := ItemsErrors(env, s, items, path, loc, i);
    b := ItemsErrors(env, s, items, path, loc, n)[|upTo|..];
    assert ItemsErrors(env, s, items, path, loc, n) == upTo + b;
  }

  /** An error of element i's checks is in the element loop's result. */
  lemma InItems(e: ValidationError, env: Env, s: Schema, items: seq<Json>, path: Option<string>, loc: seq<Step>, i: nat)
    requires i < |items|
    requires e in ItemCheck(env, s, items[i], i, path, loc + [Index(i)])
          || e in AdditionalItemErrors(env, s, items[i], i, path, loc + [Index(i)])
    ensures e in ItemsErrors(env, s, items, path, loc, |items|)
  {
    var a, b := ItemSegment(env, s, items, path, loc, i);
    assert e in ItemErrors(env, s, items[i], i, path, loc + [Index(i)]);
    InMiddle(e, a, ItemErrors(env, s, items[i], i, path, loc + [Index(i)]), b);
  }

  /** When `Item` rejects element i, an ArrayItemNotValid child error with property `[i]` and path
      `parent[i]` maps the item schema to the element's errors. */
  lemma ItemReported(env: Env, s: Schema, items: seq<Json>, path: Option<string>, loc: seq<Step>, i: nat)
    requires i < |items| && s.item.Some?
    requires Validate(env, s.item.value, items[i], None, Some(ItemPath(path, IndexText(i))), loc + [Index(i)]) != []
    ensures NewChildError(ArrayItemNotValid, Some(IndexText(i)), Some(ItemPath(path, IndexText(i))),
                          [Branch(s.item.value, Validate(env, s.item.value, items[i], None, Some(ItemPath(path, IndexText(i))),
                                                         loc + [Index(i)]))])
      in ItemsErrors(env, s, items, path, loc, |items|)
  {
    var c := TryChild(env, s.item.value, items[i], ArrayItemNotValid, Some(IndexText(i)), ItemPath(path, IndexText(i)), loc + [Index(i)]);
    ChildErrorOnlyWhenFailing(env, s.item.value, items[i], ArrayItemNotValid, Some(IndexText(i)), ItemPath(path, IndexText(i)),
                              loc + [Index(i)]);
    assert ItemCheck(env, s, items[i], i, path, loc + [Index(i)]) == [c.value];
    InItems(c.value, env, s, items, path, loc, i);
  }

  /** Beyond the tuple's schemas, with no additional-items schema and additional items not allowed,
      element i is reported as TooManyItemsInTuple, with property `[i]` and path `parent[i]`. */
  lemma TupleOverflowReported(env: Env, s: Schema, items: seq<Json>, path: Option<string>, loc: seq<Step>, i: nat)
    requires i < |items| && 0 < |s.items| <= i
    requires s.additionalItemsSchema.None? && !s.allowAdditionalItems
    ensures NewError(TooManyItemsInTuple, Some(IndexText(i)), Some(TuplePath(path, IndexText(i))))
      in ItemsErrors(env, s, items, path, loc, |items|)
  {
    var e := NewError(TooManyItemsInTuple, Some(IndexText(i)), Some(TuplePath(path, IndexText(i))));
    assert AdditionalItemErrors(env, s, items[i], i, path, loc + [Index(i)]) == [e];
    InItems(e, env, s, items, path, loc, i);
  }

  /** Beyond the tuple's schemas, element i is validated against the additional-items schema; when
      that fails, an AdditionalItemNotValid child error maps it to the element's errors. */
  lemma AdditionalItemReported(env: Env, s: Schema, items: seq<Json>, path: Option<string>, loc: seq<Step>, i: nat)
    requires i < |items| && 0 < |s.items| <= i && s.additionalItemsSchema.Some?
    requires Validate(env, s.additionalItemsSchema.value, items[i], None, Some(TuplePath(path, IndexText(i))), loc + [Index(i)]) != []
    ensures NewChildError(AdditionalItemNotValid, Some(IndexText(i)), Some(TuplePath(path, IndexText(i))),
                          [Branch(s.additionalItemsSchema.value,
                                  Validate(env, s.additionalItemsSchema.value, items[i], None, Some(TuplePath(path, IndexText(i))),
                                           loc + [Index(i)]))])
      in ItemsErrors(env, s, items, path, loc, |items|)
  {
    var child := s.additionalItemsSchema.value;
    var c := TryChild(env, child, items[i], AdditionalItemNotValid, Some(IndexText(i)), TuplePath(path, IndexText(i)), loc + [Index(i)]);
    ChildErrorOnlyWhenFailing(env, child, items[i], AdditionalItemNotValid, Some(IndexText(i)), TuplePath(path, IndexText(i)),
                              loc + [Index(i)]);
    assert AdditionalItemErrors(env, s, items[i], i, path, loc + [Index(i)]) == [c.value];
    InItems(c.value, env, s, items, path, loc, i);
  }

  /** Within the tuple, element i is validated against tuple schema i; when that fails, an
      ArrayItemNotValid child error maps that schema to the element's errors. */
  lemma TupleItemReported(env: Env, s: Schema, items: seq<Json>, path: Option<string>, loc: seq<Step>, i: nat)
    requires i < |items| && i < |s.items|
    requires Validate(env, s.items[i], items[i], None, Some(TuplePath(path, IndexText(i))), loc + [Index(i)]) != []
    ensures NewChildError(ArrayItemNotValid, Some(IndexText(i)), Some(TuplePath(path, IndexText(i))),
                          [Branch(s.items[i], Validate(env, s.items[i], items[i], None, Some(TuplePath(path, IndexText(i))),
                                                       loc + [Index(i)]))])
      in ItemsErrors(env, s, items, path, loc, |items|)
  {
    var c := TryChild(env, s.items[i], items[i], ArrayItemNotValid, Some(IndexText(i)), TuplePath(path, IndexText(i)), loc + [Index(i)]);
    ChildErrorOnlyWhenFailing(env, s.items[i], items[i], ArrayItemNotValid, Some(IndexText(i)), TuplePath(path, IndexText(i)),
                              loc + [Index(i)]);
    assert AdditionalItemErrors(env, s, items[i], i, path, loc + [Index(i)]) == [c.value];
    InItems(c.value, env, s, items, path, loc, i);
  }

  /** Different elements get different `[i]` property names. */
  lemma IndexTextInjective(i: nat, j: nat)
    requires IndexText(i) == IndexText(j)
    ensures i == j
  {
    assert NatToString(i) == IndexText(i)[1..|IndexText(i)| - 1];
    assert NatToString(j) == IndexText(j)[1..|IndexText(j)| - 1];
    NatToStringInjective(i, j);
  }

  // ----- the unconstrained schema -----------------------------------------------------------------

  lemma {:induction false} AnyItems(env: Env, items: seq<Json>, path: Option<string>, loc: seq<Step>, n: nat)
    requires n <= |items|
    ensures ItemsErrors(env, Any, items, path, loc, n) == []
  {
    if n > 0 {
      AnyItems(env, items, path, loc, n - 1);
      assert ItemCheck(env, Any, items[n - 1], n - 1, path, loc + [Index(n - 1)]) == [];
      assert AdditionalItemErrors(env, Any, items[n - 1], n - 1, path, loc + [Index(n - 1)]) == [];
    }
  }

  lemma {:induction false} AnyPatterns(env: Env, members: seq<Member>, loc: seq<Step>, n: nat)
    requires n <= |members|
    ensures PatternErrors(env, Any, members, loc, n) == []
  {
    if n > 0 {
      AnyPatterns(env, members, loc, n - 1);
      assert FirstPattern(env, Any, members[n - 1].name).None?;
    }
  }

  lemma AnyTypes(env: Env, t: Json, name: Option<string>, path: Option<string>, loc: seq<Step>)
    ensures TypeErrors(env, Any, t, name, path, loc) == []
  {
    FlagsInNone(FlagOrder);
    if t.JArray? {
      AnyItems(env, t.items, path, loc, |t.items|);
      assert CountErrors(env, Any, t.items, name, path) == [];
    }
    assert ArrayErrors(env, Any, t, {}, name, path, loc) == [];
    assert StringErrors(env, Any, t, {}, name, path) == [];
    assert NumberErrors(Any, t, {}, name, path) == [];
    assert KindErrors(t, {}, name, path) == [];
  }

  lemma AnyProperties(env: Env, t: Json, name: Option<string>, path: Option<string>, loc: seq<Step>)
    ensures PropertiesErrors(env, Any, t, name, path, loc) == []
  {
    if t.JObject? {
      var undeclared := Undeclared(Any, t.members);
      AnyPatterns(env, undeclared, loc, |undeclared|);
      assert AdditionalErrors(env, Any, Unmatched(env, Any, undeclared), path, loc) == [];
      assert PropertyCountErrors(Any, t.members, name, path) == [];
      MemberParts(env, Any, t.members, name, path, loc);
    }
  }

  lemma AnyComposition(env: Env, c: Composition, t: Json, name: Option<string>, path: Option<string>, loc: seq<Step>)
    ensures CompositionErrors(env, Any, c, t, name, path, loc) == []
  {
    assert Subschemas(Any, c) == [];
  }

  /** A freshly constructed schema, which sets no constraint, accepts every token. */
  lemma AnyAccepts(env: Env, t: Json, name: Option<string>, path: Option<string>, loc: seq<Step>)
    ensures Validate(env, Any, t, name, path, loc) == []
  {
    AnyComposition(env, AnyOfRule, t, name, path, loc);
    AnyComposition(env, AllOfRule, t, name, path, loc);
    AnyComposition(env, OneOfRule, t, name, path, loc);
    AnyTypes(env, t, name, path, loc);
    AnyProperties(env, t, name, path, loc);
    assert NotErrors(env, Any, t, name, path, loc) == [];
    assert EnumErrors(env, Any, t, name, path) == [];
  }
}
