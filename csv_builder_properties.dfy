/**
 * What the CSV builder computes, stated against the request: one stub per
 * `attributes` entry, the last value of a title wins, urls, files and comments
 * are concatenated in request order, `cav_keys` covers exactly the titles of the
 * request, and each block is emitted only with at least one data row.
 */
module CsvBuilderProperties {
  import opened Wrappers
  import opened Strings
  import opened CsvBuilder

  // ---------------------------------------------------------------------------
  // Collecting one stub

  lemma {:induction false} AddValuesKeepsIdentity(stub: AssessmentStub, values: seq<CavInput>, cache: map<int, string>)
    ensures AddValues(stub, values, cache).id == stub.id
    ensures AddValues(stub, values, cache).slug == stub.slug
    ensures AddValues(stub, values, cache).needsVerification == stub.needsVerification
  {
    if values != [] {
      AddValuesKeepsIdentity(stub, values[..|values| - 1], cache);
    }
  }

  lemma TitlesOfSnoc(values: seq<CavInput>)
    requires values != []
    ensures TitlesOf(values) == TitlesOf(values[..|values| - 1]) + {values[|values| - 1].title}
  {
    var n := |values| - 1;
    var p := values[..n];
    forall t | t in TitlesOf(values)
      ensures t in TitlesOf(p) + {values[n].title}
    {
      var i :| 0 <= i < |values| && values[i].title == t;
      if i < n {
        assert p[i] == values[i];
      }
    }
    forall t | t in TitlesOf(p)
      ensures t in TitlesOf(values)
    {
      var i :| 0 <= i < |p| && p[i].title == t;
      assert values[i] == p[i];
    }
  }

  /** The stub has one attribute per distinct title of its values. */
  lemma {:induction false} AddValuesTitles(stub: AssessmentStub, values: seq<CavInput>, cache: map<int, string>)
    ensures AddValues(stub, values, cache).cavs.Keys == stub.cavs.Keys + TitlesOf(values)
  {
    if values == [] {
      assert TitlesOf(values) == {};
    } else {
      AddValuesTitles(stub, values[..|values| - 1], cache);
      TitlesOfSnoc(values);
    }
  }

  /** When a title occurs more than once, the value of its last occurrence is kept. */
  lemma {:induction false} AddValuesLastWins(stub: AssessmentStub, values: seq<CavInput>, cache: map<int, string>, t: string)
    requires t in TitlesOf(values)
    ensures t in AddValues(stub, values, cache).cavs
    ensures AddValues(stub, values, cache).cavs[t]
            == PopulateValue(values[LastWithTitle(values, t)].value, values[LastWithTitle(values, t)].cavType, cache)
  {
    var n := |values| - 1;
    if values[n].title != t {
      var p := values[..n];
      TitlesOfSnoc(values);
      AddValuesLastWins(stub, p, cache, t);
      assert LastWithTitle(values, t) == LastWithTitle(p, t);
      assert p[LastWithTitle(p, t)] == values[LastWithTitle(p, t)];
    }
  }

  lemma {:induction false} ConcatSnoc(parts: seq<seq<string>>, p: seq<string>)
    ensures Concat(parts + [p]) == Concat(parts) + p
  {
    if parts == [] {
      assert parts + [p] == [p];
      assert Concat([p]) == p + Concat([]);
    } else {
      assert (parts + [p])[1..] == parts[1..] + [p];
      ConcatSnoc(parts[1..], p);
    }
  }

  lemma UrlPartsSnoc(values: seq<CavInput>)
    requires values != []
    ensures UrlParts(values) == UrlParts(values[..|values| - 1]) + [ExtraOf(values[|values| - 1]).urls]
  {
    var n := |values| - 1;
    var whole, split := UrlParts(values), UrlParts(values[..n]) + [ExtraOf(values[n]).urls];
    forall i | 0 <= i < n
      ensures whole[i] == split[i]
    {
      assert values[..n][i] == values[i];
    }
    assert whole == split;
  }

  lemma FilePartsSnoc(values: seq<CavInput>)
    requires values != []
    ensures FileParts(values) == FileParts(values[..|values| - 1]) + [FileIds(ExtraOf(values[|values| - 1]).files)]
  {
    var n := |values| - 1;
    var whole, split := FileParts(values), FileParts(values[..n]) + [FileIds(ExtraOf(values[n]).files)];
    forall i | 0 <= i < n
      ensures whole[i] == split[i]
    {
      assert values[..n][i] == values[i];
    }
    assert whole == split;
  }

  /** The last value adds its urls and its files' ids at the end of the stub's lists. */
  lemma AddValuesEvidenceSnoc(stub: AssessmentStub, values: seq<CavInput>, cache: map<int, string>)
    requires values != []
    ensures var n := |values| - 1;
            var before := AddValues(stub, values[..n], cache);
            var after := AddValues(stub, values, cache);
            after.urls == before.urls + ExtraOf(values[n]).urls
            && after.files == before.files + FileIds(ExtraOf(values[n]).files)
  {
  }

  /** Evidence urls are the urls of every value, concatenated in request order. */
  lemma {:induction false} AddValuesUrls(stub: AssessmentStub, values: seq<CavInput>, cache: map<int, string>)
    ensures AddValues(stub, values, cache).urls == stub.urls + Concat(UrlParts(values))
  {
    if values == [] {
      assert UrlParts(values) == [];
    } else {
      var n := |values| - 1;
      var last := ExtraOf(values[n]).urls;
      var earlier := Concat(UrlParts(values[..n]));
      AddValuesUrls(stub, values[..n], cache);
      AddValuesEvidenceSnoc(stub, values, cache);
      UrlPartsSnoc(values);
      ConcatSnoc(UrlParts(values[..n]), last);
      assert stub.urls + earlier + last == stub.urls + (earlier + last);
    }
  }

  /** Evidence files are the gdrive ids of every value's files, concatenated in request order. */
  lemma {:induction false} AddValuesFiles(stub: AssessmentStub, values: seq<CavInput>, cache: map<int, string>)
    ensures AddValues(stub, values, cache).files == stub.files + Concat(FileParts(values))
  {
    if values == [] {
      assert FileParts(values) == [];
    } else {
      var n := |values| - 1;
      var last := FileIds(ExtraOf(values[n]).files);
      var earlier := Concat(FileParts(values[..n]));
      AddValuesFiles(stub, values[..n], cache);
      AddValuesEvidenceSnoc(stub, values, cache);
      FilePartsSnoc(values);
      ConcatSnoc(FileParts(values[..n]), last);
      assert stub.files + earlier + last == stub.files + (earlier + last);
    }
  }

  lemma {:induction false} CommentsOfSnoc(values: seq<CavInput>)
    requires values != []
    ensures CommentsOf(values) == CommentsOf(values[..|values| - 1]) + CommentOf(values[|values| - 1])
  {
    var n := |values| - 1;
    if n == 0 {
      assert values[..n] == [];
      assert CommentsOf(values) == CommentOf(values[0]) + CommentsOf(values[1..]);
      assert values[1..] == [];
    } else {
      CommentsOfSnoc(values[1..]);
      assert values[1..][..n - 1] == values[..n][1..];
      assert values[1..][n - 1] == values[n];
    }
  }

  /** Comments are the non-empty comments of the values, in request order, each tagged with its value's id. */
  lemma {:induction false} AddValuesComments(stub: AssessmentStub, values: seq<CavInput>, cache: map<int, string>)
    ensures AddValues(stub, values, cache).comments == stub.comments + CommentsOf(values)
  {
    if values != [] {
      var n := |values| - 1;
      AddValuesComments(stub, values[..n], cache);
      CommentsOfSnoc(values);
    }
  }

  lemma {:induction false} CommentsOfFrom(values: seq<CavInput>, c: StubComment)
    requires c in CommentsOf(values)
    ensures exists j :: 0 <= j < |values| && c.fields == ExtraOf(values[j]).comment != map[] && c.cadId == values[j].id
  {
    if c !in CommentOf(values[0]) {
      CommentsOfFrom(values[1..], c);
      var j :| 0 <= j < |values[1..]| && c.fields == ExtraOf(values[1..][j]).comment != map[] && c.cadId == values[1..][j].id;
      assert values[1..][j] == values[j + 1];
    }
  }

  // ---------------------------------------------------------------------------
  // Needs-verification flag

  lemma {:induction false} VerifiedAmongSpec(ids: seq<int>, stored: seq<StoredAssessment>, x: int)
    ensures x in VerifiedAmong(ids, stored)
            <==> x in ids && exists k :: 0 <= k < |stored| && stored[k].id == x && stored[k].hasVerifiers
  {
    if stored != [] {
      var n := |stored| - 1;
      var p := stored[..n];
      var last := stored[n];
      VerifiedAmongSpec(ids, p, x);
      assert VerifiedAmong(ids, stored)
             == VerifiedAmong(ids, p) + (if last.id in ids && last.hasVerifiers then [last.id] else []);
      assert (exists k :: 0 <= k < |stored| && stored[k].id == x && stored[k].hasVerifiers)
             <==> (exists k :: 0 <= k < |p| && p[k].id == x && p[k].hasVerifiers) || (last.id == x && last.hasVerifiers)
      by {
        if exists k :: 0 <= k < |stored| && stored[k].id == x && stored[k].hasVerifiers {
          var k :| 0 <= k < |stored| && stored[k].id == x && stored[k].hasVerifiers;
          if k < n {
            assert p[k] == stored[k];
          }
        }
        if exists k :: 0 <= k < |p| && p[k].id == x && p[k].hasVerifiers {
          var k :| 0 <= k < |p| && p[k].id == x && p[k].hasVerifiers;
          assert stored[k] == p[k];
        }
      }
    }
  }

  /** An id needs verification exactly when it was sent and its stored assessment has Verifiers. */
  lemma NeedsVerificationsSpec(ids: seq<int>, stored: seq<StoredAssessment>, x: int)
    ensures x in NeedsVerifications(ids, stored)
            <==> x in ids && exists k :: 0 <= k < |stored| && stored[k].id == x && stored[k].hasVerifiers
  {
    if ids != [] {
      VerifiedAmongSpec(ids, stored, x);
    }
  }

  // ---------------------------------------------------------------------------
  // Collecting all stubs

  /** One stub per `attributes` entry, in input order. */
  lemma {:induction false} CollectStubsSpec(attrs: seq<AttributesEntry>, needs: seq<int>, cache: map<int, string>)
    ensures |CollectStubs(attrs, needs, cache)| == |attrs|
    ensures forall i :: 0 <= i < |attrs| ==> CollectStubs(attrs, needs, cache)[i] == BuildStub(attrs[i], needs, cache)
  {
    if attrs != [] {
      var n := |attrs| - 1;
      CollectStubsSpec(attrs[..n], needs, cache);
      assert forall i :: 0 <= i < n ==> attrs[..n][i] == attrs[i];
    }
  }

  /** The state a completed entry is imported with: "In Review" exactly when it was sent and has Verifiers. */
  lemma CompleteStateOfEntry(req: Request, stored: seq<StoredAssessment>, cache: map<int, string>, i: int)
    requires 0 <= i < |req.attributes|
    ensures var stubs := CollectStubs(req.attributes, NeedsVerifications(req.assessmentsIds, stored), cache);
            var id := req.attributes[i].assessment.id;
            |stubs| == |req.attributes|
            && stubs[i].id == id
            && stubs[i].slug == req.attributes[i].assessment.slug
            && (CompleteState(stubs[i]) == "In Review"
                <==> id in req.assessmentsIds
                     && exists k :: 0 <= k < |stored| && stored[k].id == id && stored[k].hasVerifiers)
  {
    var needs := NeedsVerifications(req.assessmentsIds, stored);
    CollectStubsSpec(req.attributes, needs, cache);
    var entry := req.attributes[i];
    AddValuesKeepsIdentity(NewStub(entry, needs), entry.values, cache);
    NeedsVerificationsSpec(req.assessmentsIds, stored, entry.assessment.id);
  }

  lemma {:induction false} AllTitlesSpec(stubs: seq<AssessmentStub>, t: string)
    ensures t in AllTitles(stubs) <==> exists i :: 0 <= i < |stubs| && t in stubs[i].cavs
  {
    if stubs != [] {
      var n := |stubs| - 1;
      var p := stubs[..n];
      AllTitlesSpec(p, t);
      if exists i :: 0 <= i < |stubs| && t in stubs[i].cavs {
        var i :| 0 <= i < |stubs| && t in stubs[i].cavs;
        if i < n {
          assert p[i] == stubs[i];
        }
      }
      if exists i :: 0 <= i < |p| && t in p[i].cavs {
        var i :| 0 <= i < |p| && t in p[i].cavs;
        assert stubs[i] == p[i];
      }
    }
  }

  /** The attribute columns of the update are exactly the titles that occur in the request. */
  lemma KeysAreRequestTitles(attrs: seq<AttributesEntry>, needs: seq<int>, cache: map<int, string>, t: string)
    ensures t in AllTitles(CollectStubs(attrs, needs, cache))
            <==> exists i, j :: 0 <= i < |attrs| && 0 <= j < |attrs[i].values| && attrs[i].values[j].title == t
  {
    var stubs := CollectStubs(attrs, needs, cache);
    CollectStubsSpec(attrs, needs, cache);
    AllTitlesSpec(stubs, t);
    forall i | 0 <= i < |attrs|
      ensures t in stubs[i].cavs <==> t in TitlesOf(attrs[i].values)
    {
      AddValuesTitles(NewStub(attrs[i], needs), attrs[i].values, cache);
    }
  }

  // ---------------------------------------------------------------------------
  // People

  lemma {:induction false} PersonValuesOfContains(values: seq<CavInput>, j: int)
    requires 0 <= j < |values| && values[j].cavType == MAP_PERSON
    ensures values[j].value in PersonValuesOf(values)
  {
    var n := |values| - 1;
    if j < n {
      PersonValuesOfContains(values[..n], j);
    }
  }

  lemma {:induction false} PersonValuesContains(attrs: seq<AttributesEntry>, i: int, j: int)
    requires 0 <= i < |attrs| && 0 <= j < |attrs[i].values| && attrs[i].values[j].cavType == MAP_PERSON
    ensures attrs[i].values[j].value in PersonValues(attrs)
  {
    var n := |attrs| - 1;
    if i < n {
      PersonValuesContains(attrs[..n], i, j);
    } else {
      PersonValuesOfContains(attrs[i].values, j);
    }
  }

  /** A person value of the request renders as that person's email, or empty for an unknown id. */
  lemma PeopleCacheLookup(attrs: seq<AttributesEntry>, people: map<int, string>, i: int, j: int)
    requires 0 <= i < |attrs| && 0 <= j < |attrs[i].values| && attrs[i].values[j].cavType == MAP_PERSON
    ensures var v := attrs[i].values[j].value;
            PopulateValue(v, MAP_PERSON, PeopleCache(attrs, people))
            == (if v.Int? && v.i in people then Str(people[v.i]) else Str(""))
  {
    PersonValuesContains(attrs, i, j);
  }

  // ---------------------------------------------------------------------------
  // Comments carry the description the LCA block reads

  /** Every non-empty comment object of the request has a `description`. */
  predicate RequestDescribed(attrs: seq<AttributesEntry>)
  {
    forall i, j :: 0 <= i < |attrs| && 0 <= j < |attrs[i].values| && ExtraOf(attrs[i].values[j]).comment != map[]
      ==> "description" in ExtraOf(attrs[i].values[j]).comment
  }

  /** The comment of a value with a non-empty comment object is among the comments of its values. */
  lemma {:induction false} CommentOfIn(values: seq<CavInput>, j: int)
    requires 0 <= j < |values| && ExtraOf(values[j]).comment != map[]
    ensures StubComment(ExtraOf(values[j]).comment, values[j].id) in CommentsOf(values)
  {
    if j > 0 {
      CommentOfIn(values[1..], j - 1);
      assert values[1..][j - 1] == values[j];
    }
  }

  /** The collected comments all have a `description` exactly when every comment object of the request has one. */
  lemma CollectedCommentsDescribed(attrs: seq<AttributesEntry>, needs: seq<int>, cache: map<int, string>)
    ensures CommentsDescribed(CollectStubs(attrs, needs, cache)) <==> RequestDescribed(attrs)
  {
    var stubs := CollectStubs(attrs, needs, cache);
    CollectStubsSpec(attrs, needs, cache);
    if RequestDescribed(attrs) {
      forall i | 0 <= i < |stubs|
        ensures Described(stubs[i].comments)
      {
        AddValuesComments(NewStub(attrs[i], needs), attrs[i].values, cache);
        forall c | c in stubs[i].comments
          ensures "description" in c.fields
        {
          CommentsOfFrom(attrs[i].values, c);
        }
      }
    } else {
      var i, j :| 0 <= i < |attrs| && 0 <= j < |attrs[i].values| && ExtraOf(attrs[i].values[j]).comment != map[]
                  && "description" !in ExtraOf(attrs[i].values[j]).comment;
      AddValuesComments(NewStub(attrs[i], needs), attrs[i].values, cache);
      CommentOfIn(attrs[i].values, j);
      assert !Described(stubs[i].comments);
    }
  }

  /** The attribute update raises exactly when some comment object of the request lacks a `description`. */
  lemma AttributesUpdateFails(attrs: seq<AttributesEntry>, needs: seq<int>, cache: map<int, string>, keys: seq<string>)
    ensures AttributesUpdateCsv(CollectStubs(attrs, needs, cache), keys).Failure? <==> !RequestDescribed(attrs)
    ensures AttributesUpdateCsv(CollectStubs(attrs, needs, cache), keys).Failure? ==>
              AttributesUpdateCsv(CollectStubs(attrs, needs, cache), keys).error == DESCRIPTION_KEY_ERROR
  {
    CollectedCommentsDescribed(attrs, needs, cache);
  }

  // ---------------------------------------------------------------------------
  // Blocks

  /** Every attribute row is as wide as the header and starts with an empty cell. */
  lemma {:induction false} AttributesRowsWidth(stubs: seq<AssessmentStub>, keys: seq<string>)
    ensures forall r :: r in AttributesRows(stubs, keys) ==> |r| == |AttributesHeader(keys)| && r[0] == ""
  {
    if stubs != [] {
      AttributesRowsWidth(stubs[..|stubs| - 1], keys);
    }
  }

  /** Every attribute row is the row of a stub that has a value. */
  lemma {:induction false} AttributesRowsFromStubs(stubs: seq<AssessmentStub>, keys: seq<string>, r: Row)
    requires r in AttributesRows(stubs, keys)
    ensures exists i :: 0 <= i < |stubs| && stubs[i].cavs != map[] && r == AttributesRow(stubs[i], keys)
  {
    var n := |stubs| - 1;
    var p := stubs[..n];
    if r in AttributesRows(p, keys) {
      AttributesRowsFromStubs(p, keys, r);
      var i :| 0 <= i < |p| && p[i].cavs != map[] && r == AttributesRow(p[i], keys);
      assert stubs[i] == p[i];
    } else {
      assert stubs[n].cavs != map[] && r == AttributesRow(stubs[n], keys);
    }
  }

  /** Every stub that has a value gets its attribute row. */
  lemma {:induction false} AttributesRowsCover(stubs: seq<AssessmentStub>, keys: seq<string>, i: int)
    requires 0 <= i < |stubs| && stubs[i].cavs != map[]
    ensures AttributesRow(stubs[i], keys) in AttributesRows(stubs, keys)
  {
    var n := |stubs| - 1;
    if i < n {
      AttributesRowsCover(stubs[..n], keys, i);
    }
  }

  /** Under the header column of title `keys[j]` a row holds the stub's value for that title, or "". */
  lemma AttributesRowCell(stub: AssessmentStub, keys: seq<string>, j: int)
    requires 0 <= j < |keys|
    ensures var r := AttributesRow(stub, keys);
            var h := AttributesHeader(keys);
            |r| == |h| && h[4 + j] == keys[j] && r[1] == stub.slug
            && r[4 + j] == (if keys[j] in stub.cavs then Render(stub.cavs[keys[j]]) else "")
  {
  }

  /** The attribute block exists exactly when some stub has a value. */
  lemma AssessmentBlockExists(stubs: seq<AssessmentStub>, keys: seq<string>)
    ensures AssessmentBlock(stubs, keys) != [] <==> exists i :: 0 <= i < |stubs| && stubs[i].cavs != map[]
  {
    var rows := AttributesRows(stubs, keys);
    if rows != [] {
      AttributesRowsFromStubs(stubs, keys, rows[0]);
    }
    if exists i :: 0 <= i < |stubs| && stubs[i].cavs != map[] {
      var i :| 0 <= i < |stubs| && stubs[i].cavs != map[];
      AttributesRowsCover(stubs, keys, i);
    }
  }

  lemma {:induction false} CommentRowsSpec(comments: seq<StubComment>)
    requires Described(comments)
    ensures |CommentRows(comments)| == |comments|
    ensures forall k :: 0 <= k < |comments| ==>
              CommentRows(comments)[k] == ["", comments[k].fields["description"], IntToString(comments[k].cadId)]
  {
    if comments != [] {
      var n := |comments| - 1;
      CommentRowsSpec(comments[..n]);
    }
  }

  /** There are LCA rows exactly when some stub has a comment. */
  lemma {:induction false} LcaRowsEmpty(stubs: seq<AssessmentStub>)
    requires CommentsDescribed(stubs)
    ensures LcaRows(stubs) == [] <==> !HasComments(stubs)
  {
    if stubs != [] {
      var n := |stubs| - 1;
      var p := stubs[..n];
      assert forall i :: 0 <= i < n ==> p[i] == stubs[i];
      LcaRowsEmpty(p);
      CommentRowsSpec(stubs[n].comments);
      if HasComments(stubs) && !HasComments(p) {
        assert stubs[n].comments != [];
      }
    }
  }

  /** Every LCA row is the row of some stub's comment. */
  lemma {:induction false} LcaRowsSound(stubs: seq<AssessmentStub>)
    requires CommentsDescribed(stubs)
    ensures forall r :: r in LcaRows(stubs) ==>
              exists i, c :: 0 <= i < |stubs| && c in stubs[i].comments
                             && r == ["", c.fields["description"], IntToString(c.cadId)]
  {
    if stubs != [] {
      var n := |stubs| - 1;
      var p := stubs[..n];
      assert forall i :: 0 <= i < n ==> p[i] == stubs[i];
      LcaRowsSound(p);
      var tail := CommentRows(stubs[n].comments);
      CommentRowsSpec(stubs[n].comments);
      forall r | r in tail
        ensures exists i, c :: 0 <= i < |stubs| && c in stubs[i].comments
                               && r == ["", c.fields["description"], IntToString(c.cadId)]
      {
        var k :| 0 <= k < |tail| && tail[k] == r;
        assert stubs[n].comments[k] in stubs[n].comments;
      }
    }
  }

  /** Every comment has its row among the comment rows. */
  lemma CommentRowsComplete(comments: seq<StubComment>)
    requires Described(comments)
    ensures forall c :: c in comments ==> ["", c.fields["description"], IntToString(c.cadId)] in CommentRows(comments)
  {
    CommentRowsSpec(comments);
    forall c | c in comments
      ensures ["", c.fields["description"], IntToString(c.cadId)] in CommentRows(comments)
    {
      var k :| 0 <= k < |comments| && comments[k] == c;
      assert CommentRows(comments)[k] == ["", c.fields["description"], IntToString(c.cadId)];
    }
  }

  /** Every comment of every stub has its LCA row. */
  lemma {:induction false} LcaRowsComplete(stubs: seq<AssessmentStub>)
    requires CommentsDescribed(stubs)
    ensures forall i, c :: 0 <= i < |stubs| && c in stubs[i].comments ==>
              ["", c.fields["description"], IntToString(c.cadId)] in LcaRows(stubs)
  {
    if stubs != [] {
      var n := |stubs| - 1;
      var p := stubs[..n];
      assert forall i :: 0 <= i < n ==> p[i] == stubs[i];
      LcaRowsComplete(p);
      var earlier, tail := LcaRows(p), CommentRows(stubs[n].comments);
      assert LcaRows(stubs) == earlier + tail;
      CommentRowsComplete(stubs[n].comments);
      forall i, c | 0 <= i < |stubs| && c in stubs[i].comments
        ensures ["", c.fields["description"], IntToString(c.cadId)] in earlier + tail
      {
        if i < n {
          assert c in p[i].comments;
        }
      }
    }
  }

  /** LCA rows: exactly one per collected comment. */
  lemma LcaRowsSpec(stubs: seq<AssessmentStub>)
    requires CommentsDescribed(stubs)
    ensures LcaRows(stubs) == [] <==> !HasComments(stubs)
    ensures forall r :: r in LcaRows(stubs) ==>
              exists i, c :: 0 <= i < |stubs| && c in stubs[i].comments
                             && r == ["", c.fields["description"], IntToString(c.cadId)]
    ensures forall i, c :: 0 <= i < |stubs| && c in stubs[i].comments ==>
              ["", c.fields["description"], IntToString(c.cadId)] in LcaRows(stubs)
  {
    LcaRowsEmpty(stubs);
    LcaRowsSound(stubs);
    LcaRowsComplete(stubs);
  }

  /** The LCA block is never a header without rows. */
  lemma LcaBlockSpec(stubs: seq<AssessmentStub>)
    requires CommentsDescribed(stubs)
    ensures LcaBlock(stubs) != [] <==> HasComments(stubs)
    ensures LcaBlock(stubs) != [] ==> |LcaBlock(stubs)| > 2 && LcaBlock(stubs)[1] == LCA_HEADER
  {
    LcaRowsSpec(stubs);
  }

  /** Complete rows: every stub whose slug has no import error, with its state, and nothing else. */
  lemma {:induction false} CompleteRowsSpec(stubs: seq<AssessmentStub>, errors: set<string>)
    ensures forall i :: 0 <= i < |stubs| && stubs[i].slug !in errors ==>
              ["", stubs[i].slug, CompleteState(stubs[i])] in CompleteRows(stubs, errors)
    ensures forall r :: r in CompleteRows(stubs, errors) ==>
              exists i :: 0 <= i < |stubs| && stubs[i].slug !in errors && r == ["", stubs[i].slug, CompleteState(stubs[i])]
  {
    if stubs != [] {
      var n := |stubs| - 1;
      var p := stubs[..n];
      CompleteRowsSpec(p, errors);
      assert forall i :: 0 <= i < n ==> p[i] == stubs[i];
    }
  }

  /** Nothing to complete exactly when every stub's slug failed the attribute import. */
  lemma CompleteCsvEmpty(stubs: seq<AssessmentStub>, errors: set<string>)
    ensures CompleteCsv(stubs, errors) == [] <==> forall i :: 0 <= i < |stubs| ==> stubs[i].slug in errors
  {
    var rows := CompleteRows(stubs, errors);
    CompleteRowsSpec(stubs, errors);
    if rows != [] {
      assert rows[0] in rows;
    }
    if exists i :: 0 <= i < |stubs| && stubs[i].slug !in errors {
      var i :| 0 <= i < |stubs| && stubs[i].slug !in errors;
      assert ["", stubs[i].slug, CompleteState(stubs[i])] in rows;
    }
  }

  lemma {:induction false} VerifyRowsSpec(stubs: seq<AssessmentStub>, verifyDate: string)
    ensures |VerifyRows(stubs, verifyDate)| == |stubs|
    ensures forall i :: 0 <= i < |stubs| ==> VerifyRows(stubs, verifyDate)[i] == ["", stubs[i].slug, "Completed", verifyDate]
  {
    if stubs != [] {
      VerifyRowsSpec(stubs[..|stubs| - 1], verifyDate);
    }
  }

  /** Every stub comes from a requested stored assessment. */
  lemma {:induction false} StoredStubsSound(ids: seq<int>, stored: seq<StoredAssessment>)
    ensures forall s :: s in StoredStubs(ids, stored) ==>
              exists k :: 0 <= k < |stored| && stored[k].id in ids && s.id == stored[k].id
                          && s.slug == stored[k].slug && s.needsVerification == stored[k].hasVerifiers
  {
    if stored != [] {
      var n := |stored| - 1;
      var p := stored[..n];
      StoredStubsSound(ids, p);
      assert forall k :: 0 <= k < n ==> p[k] == stored[k];
    }
  }

  /** Every requested stored assessment has a stub. */
  lemma {:induction false} StoredStubsComplete(ids: seq<int>, stored: seq<StoredAssessment>)
    ensures forall k :: 0 <= k < |stored| && stored[k].id in ids ==>
              exists s :: s in StoredStubs(ids, stored) && s.slug == stored[k].slug
  {
    if stored != [] {
      var n := |stored| - 1;
      var p := stored[..n];
      StoredStubsComplete(ids, p);
      var before := StoredStubs(ids, p);
      var whole := StoredStubs(ids, stored);
      assert forall s :: s in before ==> s in whole;
      forall k | 0 <= k < |stored| && stored[k].id in ids
        ensures exists s :: s in whole && s.slug == stored[k].slug
      {
        if k < n {
          assert p[k] == stored[k];
          var s :| s in before && s.slug == p[k].slug;
          assert s in whole;
        } else {
          var s := whole[|whole| - 1];
          assert s in whole;
        }
      }
    }
  }

  lemma StoredStubsSpec(ids: seq<int>, stored: seq<StoredAssessment>)
    ensures forall s :: s in StoredStubs(ids, stored) ==>
              exists k :: 0 <= k < |stored| && stored[k].id in ids && s.id == stored[k].id
                          && s.slug == stored[k].slug && s.needsVerification == stored[k].hasVerifiers
    ensures forall k :: 0 <= k < |stored| && stored[k].id in ids ==>
              exists s :: s in StoredStubs(ids, stored) && s.slug == stored[k].slug
  {
    StoredStubsSound(ids, stored);
    StoredStubsComplete(ids, stored);
  }

  lemma {:induction false} StoredStubsEmpty(ids: seq<int>, stored: seq<StoredAssessment>)
    ensures StoredStubs(ids, stored) == [] <==> forall k :: 0 <= k < |stored| ==> stored[k].id !in ids
  {
    if stored != [] {
      var n := |stored| - 1;
      var p := stored[..n];
      StoredStubsEmpty(ids, p);
      assert forall k :: 0 <= k < n ==> p[k] == stored[k];
    }
  }

  /** The verify import is empty exactly when none of the ids is a stored assessment. */
  lemma VerifyCsvEmpty(ids: seq<int>, stored: seq<StoredAssessment>, verifyDate: string)
    ensures VerifyCsv(VerifyStubs(ids, stored), verifyDate) == []
            <==> forall k :: 0 <= k < |stored| ==> stored[k].id !in ids
  {
    VerifyRowsSpec(VerifyStubs(ids, stored), verifyDate);
    StoredStubsEmpty(ids, stored);
  }

  /** Each verify row sets a requested stored assessment to "Completed" with the run's date. */
  lemma VerifyRowsFromStored(ids: seq<int>, stored: seq<StoredAssessment>, verifyDate: string, i: int)
    requires 0 <= i < |VerifyRows(VerifyStubs(ids, stored), verifyDate)|
    ensures var r := VerifyRows(VerifyStubs(ids, stored), verifyDate)[i];
            |r| == 4 && r[2] == "Completed" && r[3] == verifyDate
            && exists k :: 0 <= k < |stored| && stored[k].id in ids && r[1] == stored[k].slug
  {
    var stubs := VerifyStubs(ids, stored);
    VerifyRowsSpec(stubs, verifyDate);
    if ids != [] {
      StoredStubsSpec(ids, stored);
      assert stubs[i] in stubs;
    }
  }
}
