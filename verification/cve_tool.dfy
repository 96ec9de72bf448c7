/**
 * The two local operations of `CVETool` in tools/cve_tool.py: the
 * Exploit-DB link for a CVE and the patch-reference filter over the
 * references of an already fetched CVE record.
 */
module CveTool {
  import opened Wrappers
  import opened PyStrings
  import opened Sequences

  // ---------------------------------------------------------------------------
  // `get_related_exploits`

  datatype Exploit = Exploit(cve: string, source: string, url: string)

  const ExploitSearch: string := "https://www.exploit-db.com/search?cve="

  /** `get_related_exploits(cve_id)` */
  function RelatedExploits(cveId: string): seq<Exploit> {
    [Exploit(cveId, "Exploit-DB", ExploitSearch + cveId)]
  }

  /** One Exploit-DB record for the CVE, whose link is the search page for
      that CVE: the id can be read back off the link. */
  lemma RelatedExploitsSpec(cveId: string)
    ensures |RelatedExploits(cveId)| == 1
    ensures RelatedExploits(cveId)[0].cve == cveId && RelatedExploits(cveId)[0].source == "Exploit-DB"
    ensures StartsWith(RelatedExploits(cveId)[0].url, ExploitSearch)
    ensures RelatedExploits(cveId)[0].url[|ExploitSearch|..] == cveId
  {
    var url := ExploitSearch + cveId;
    assert url[..|ExploitSearch|] == ExploitSearch;
    assert url[|ExploitSearch|..] == cveId;
  }

  // ---------------------------------------------------------------------------
  // `get_patch_info`

  /** A reference of the CVE record; a missing `url` is `None`, missing
      `tags` an empty list. */
  datatype Reference = Reference(url: Option<string>, tags: seq<string>)

  datatype PatchInfo = PatchInfo(patches: seq<string>, message: string)

  const NotFound: string := "CVE details not found."
  const NoPatches: string :=
    "No valid patch URLs found. Please check the vendor’s official site for updates."

  function Url(r: Reference): string {
    if r.url.Some? then r.url.value else ""
  }

  /** `name in [t.lower() for t in tags]` */
  predicate Tagged(r: Reference, name: string) {
    exists k :: 0 <= k < |r.tags| && Lower(r.tags[k]) == name
  }

  /** Not tagged as a broken link, and an `http` URL. */
  predicate Usable(r: Reference) {
    !Tagged(r, "broken link") && StartsWith(Url(r), "http")
  }

  /** `any(k in url.lower() for k in ["patch", "update", "fix"])` */
  predicate HasPatchWord(url: string) {
    Contains(Lower(url), "patch") || Contains(Lower(url), "update") || Contains(Lower(url), "fix")
  }

  /** What the first loop keeps: a usable reference tagged `patch`. */
  predicate TaggedPatch(r: Reference) {
    Usable(r) && Tagged(r, "patch")
  }

  /** What the fallback loop keeps: a usable reference whose URL names a
      patch, update or fix. */
  predicate KeywordPatch(r: Reference) {
    Usable(r) && HasPatchWord(Url(r))
  }

  /** The URLs of the references, one each, in order. */
  function Urls(refs: seq<Reference>): (r: seq<string>)
    ensures |r| == |refs|
    ensures forall i :: 0 <= i < |refs| ==> r[i] == Url(refs[i])
  {
    seq(|refs|, i requires 0 <= i < |refs| => Url(refs[i]))
  }

  /** The URLs the first loop collects: usable references tagged `patch`. */
  function TaggedPatches(refs: seq<Reference>): seq<string> {
    if |refs| == 0 then []
    else
      var last := refs[|refs| - 1];
      TaggedPatches(refs[..|refs| - 1]) + (if Usable(last) && Tagged(last, "patch") then [Url(last)] else [])
  }

  /** The URLs the fallback loop collects: usable references whose URL
      names a patch, update or fix. */
  function KeywordPatches(refs: seq<Reference>): seq<string> {
    if |refs| == 0 then []
    else
      var last := refs[|refs| - 1];
      KeywordPatches(refs[..|refs| - 1]) + (if Usable(last) && HasPatchWord(Url(last)) then [Url(last)] else [])
  }

  /** The answer of `get_patch_info` for the fetched record; `None` stands
      for a missing or empty record, and a record without references has
      none. */
  function PatchInfoOf(references: Option<seq<Reference>>): PatchInfo {
    if references.None? then PatchInfo([], NotFound)
    else
      var refs := references.value;
      var patches := if TaggedPatches(refs) != [] then TaggedPatches(refs) else KeywordPatches(refs);
      PatchInfo(patches, if patches == [] then NoPatches else "")
  }

  /** `get_patch_info(cve_id)` from the fetched record on: a tagged pass,
      then a keyword pass only when the first found nothing. */
  method GetPatchInfo(references: Option<seq<Reference>>) returns (r: PatchInfo)
    ensures r == PatchInfoOf(references)
  {
    if references.None? {
      return PatchInfo([], NotFound);
    }
    var refs := references.value;
    var patches: seq<string> := [];
    var i := 0;
    while i < |refs|
      invariant 0 <= i <= |refs|
      invariant patches == TaggedPatches(refs[..i])
    {
      assert refs[..i + 1][..i] == refs[..i];
      var ref := refs[i];
      if Usable(ref) && Tagged(ref, "patch") {
        patches := patches + [Url(ref)];
      }
      i := i + 1;
    }
    assert refs[..i] == refs;
    if patches == [] {
      i := 0;
      while i < |refs|
        invariant 0 <= i <= |refs|
        invariant patches == KeywordPatches(refs[..i])
      {
        assert refs[..i + 1][..i] == refs[..i];
        var ref := refs[i];
        if Usable(ref) && HasPatchWord(Url(ref)) {
          patches := patches + [Url(ref)];
        }
        i := i + 1;
      }
      assert refs[..i] == refs;
    }
    var message := "";
    if patches == [] {
      message := NoPatches;
    }
    return PatchInfo(patches, message);
  }

  /** A collected URL is the URL of a usable reference that passes the
      test, and every such reference's URL is collected, once per
      reference and in reference order. */
  lemma TaggedPatchesSpec(refs: seq<Reference>)
    ensures forall u :: u in TaggedPatches(refs) <==>
              exists k :: 0 <= k < |refs| && Usable(refs[k]) && Tagged(refs[k], "patch") && Url(refs[k]) == u
    ensures TaggedPatches(refs) == Urls(Filter(refs, TaggedPatch))
  {
    TaggedPatchesMembers(refs);
    TaggedPatchesInOrder(refs);
  }

  lemma {:induction false} TaggedPatchesMembers(refs: seq<Reference>)
    ensures forall u :: u in TaggedPatches(refs) <==>
              exists k :: 0 <= k < |refs| && Usable(refs[k]) && Tagged(refs[k], "patch") && Url(refs[k]) == u
    decreases |refs|
  {
    if |refs| > 0 {
      var prefix := refs[..|refs| - 1];
      TaggedPatchesMembers(prefix);
      forall u ensures u in TaggedPatches(refs) <==>
          exists k :: 0 <= k < |refs| && Usable(refs[k]) && Tagged(refs[k], "patch") && Url(refs[k]) == u {
        if exists k :: 0 <= k < |refs| && Usable(refs[k]) && Tagged(refs[k], "patch") && Url(refs[k]) == u {
          var k :| 0 <= k < |refs| && Usable(refs[k]) && Tagged(refs[k], "patch") && Url(refs[k]) == u;
          if k < |refs| - 1 {
            assert prefix[k] == refs[k];
          }
        }
        if u in TaggedPatches(prefix) {
          var k :| 0 <= k < |prefix| && Usable(prefix[k]) && Tagged(prefix[k], "patch") && Url(prefix[k]) == u;
          assert refs[k] == prefix[k];
        }
      }
    }
  }

  lemma KeywordPatchesSpec(refs: seq<Reference>)
    ensures forall u :: u in KeywordPatches(refs) <==>
              exists k :: 0 <= k < |refs| && Usable(refs[k]) && HasPatchWord(Url(refs[k])) && Url(refs[k]) == u
    ensures KeywordPatches(refs) == Urls(Filter(refs, KeywordPatch))
  {
    KeywordPatchesMembers(refs);
    KeywordPatchesInOrder(refs);
  }

  lemma {:induction false} KeywordPatchesMembers(refs: seq<Reference>)
    ensures forall u :: u in KeywordPatches(refs) <==>
              exists k :: 0 <= k < |refs| && Usable(refs[k]) && HasPatchWord(Url(refs[k])) && Url(refs[k]) == u
    decreases |refs|
  {
    if |refs| > 0 {
      var prefix := refs[..|refs| - 1];
      KeywordPatchesMembers(prefix);
      forall u ensures u in KeywordPatches(refs) <==>
          exists k :: 0 <= k < |refs| && Usable(refs[k]) && HasPatchWord(Url(refs[k])) && Url(refs[k]) == u {
        if exists k :: 0 <= k < |refs| && Usable(refs[k]) && HasPatchWord(Url(refs[k])) && Url(refs[k]) == u {
          var k :| 0 <= k < |refs| && Usable(refs[k]) && HasPatchWord(Url(refs[k])) && Url(refs[k]) == u;
          if k < |refs| - 1 {
            assert prefix[k] == refs[k];
          }
        }
        if u in KeywordPatches(prefix) {
          var k :| 0 <= k < |prefix| && Usable(prefix[k]) && HasPatchWord(Url(prefix[k])) && Url(prefix[k]) == u;
          assert refs[k] == prefix[k];
        }
      }
    }
  }

  /** The first pass collects the URL of every reference it keeps, once
      per reference and in reference order. */
  lemma {:induction false} TaggedPatchesInOrder(refs: seq<Reference>)
    ensures TaggedPatches(refs) == Urls(Filter(refs, TaggedPatch))
    decreases |refs|
  {
    if |refs| > 0 {
      var prefix := refs[..|refs| - 1];
      var last := refs[|refs| - 1];
      TaggedPatchesInOrder(prefix);
      assert refs == prefix + [last];
      FilterAppend(prefix, [last], TaggedPatch);
      FilterOne(last, TaggedPatch);
      UrlsAppend(Filter(prefix, TaggedPatch), Filter([last], TaggedPatch));
    }
  }

  /** The same for the fallback pass. */
  lemma {:induction false} KeywordPatchesInOrder(refs: seq<Reference>)
    ensures KeywordPatches(refs) == Urls(Filter(refs, KeywordPatch))
    decreases |refs|
  {
    if |refs| > 0 {
      var prefix := refs[..|refs| - 1];
      var last := refs[|refs| - 1];
      KeywordPatchesInOrder(prefix);
      assert refs == prefix + [last];
      FilterAppend(prefix, [last], KeywordPatch);
      FilterOne(last, KeywordPatch);
      UrlsAppend(Filter(prefix, KeywordPatch), Filter([last], KeywordPatch));
    }
  }

  lemma FilterOne(r: Reference, p: Reference -> bool)
    ensures Filter([r], p) == if p(r) then [r] else []
  {
    assert [r][1..] == [];
  }

  lemma UrlsAppend(a: seq<Reference>, b: seq<Reference>)
    ensures Urls(a + b) == Urls(a) + Urls(b)
  {
    assert forall i :: 0 <= i < |a + b| ==> Urls(a + b)[i] == (Urls(a) + Urls(b))[i];
  }

  /** Every patch URL is an `http` URL of a reference not tagged as a
      broken link. */
  lemma PatchesUsable(refs: seq<Reference>)
    ensures forall u :: u in PatchInfoOf(Some(refs)).patches ==>
              exists k :: 0 <= k < |refs| && Usable(refs[k]) && Url(refs[k]) == u
  {
    TaggedPatchesSpec(refs);
    KeywordPatchesSpec(refs);
  }

  /** When some usable reference is tagged `patch` the answer is exactly
      the tagged URLs and the keyword pass does not run; otherwise it is
      the keyword pass; the message is empty exactly when some URL was
      found. */
  lemma PatchInfoSpec(refs: seq<Reference>)
    ensures var info := PatchInfoOf(Some(refs));
            && ((exists k :: 0 <= k < |refs| && Usable(refs[k]) && Tagged(refs[k], "patch")) ==>
                  info.patches == TaggedPatches(refs))
            && (!(exists k :: 0 <= k < |refs| && Usable(refs[k]) && Tagged(refs[k], "patch")) ==>
                  info.patches == KeywordPatches(refs))
            && (info.message == "" <==> info.patches != [])
            && (info.message != "" ==> info.message == NoPatches)
  {
    if exists k :: 0 <= k < |refs| && Usable(refs[k]) && Tagged(refs[k], "patch") {
      var k :| 0 <= k < |refs| && Usable(refs[k]) && Tagged(refs[k], "patch");
      TaggedFound(refs, k);
    } else {
      NothingTagged(refs);
    }
  }

  lemma {:induction false} TaggedFound(refs: seq<Reference>, k: nat)
    requires k < |refs| && Usable(refs[k]) && Tagged(refs[k], "patch")
    ensures TaggedPatches(refs) != []
    decreases |refs|
  {
    if k < |refs| - 1 {
      TaggedFound(refs[..|refs| - 1], k);
    }
  }

  lemma {:induction false} NothingTagged(refs: seq<Reference>)
    requires forall k :: 0 <= k < |refs| ==> !(Usable(refs[k]) && Tagged(refs[k], "patch"))
    ensures TaggedPatches(refs) == []
    decreases |refs|
  {
    if |refs| > 0 {
      NothingTagged(refs[..|refs| - 1]);
    }
  }

  /** A missing record gives no patches and the not-found message. */
  lemma PatchInfoNotFound()
    ensures PatchInfoOf(None) == PatchInfo([], "CVE details not found.")
  {
  }

  /** A broken link tagged `Patch` is skipped; the keyword pass then finds
      an advisory URL naming an update. */
  lemma PatchInfoExample()
    ensures var broken := Reference(Some("https://a.example/patch"), ["Patch", "Broken Link"]);
            var advisory := Reference(Some("https://b.example/update-1"), ["Vendor Advisory"]);
            PatchInfoOf(Some([broken, advisory])).patches == ["https://b.example/update-1"]
  {
    var broken := Reference(Some("https://a.example/patch"), ["Patch", "Broken Link"]);
    var advisory := Reference(Some("https://b.example/update-1"), ["Vendor Advisory"]);
    assert Lower(broken.tags[1]) == "broken link";
    assert Tagged(broken, "broken link");
    assert !Tagged(advisory, "broken link") && !Tagged(advisory, "patch") by {
      assert Lower("Vendor Advisory")[0] == 'v';
    }
    var u := "https://b.example/update-1";
    assert StartsWith(u, "http") by { assert u[..4] == "http"; }
    assert HasPatchWord(u) by {
      assert forall i :: 0 <= i < |u| ==> !('A' <= u[i] <= 'Z');
      assert Lower(u) == u;
      assert u[18..24] == "update";
      ContainsAt(u, "update", 18);
    }
    assert Usable(advisory) && HasPatchWord(Url(advisory));
    var refs := [broken, advisory];
    assert refs[..1] == [broken] && [broken][..0] == [];
    assert !Usable(broken);
    assert TaggedPatches([broken]) == [];
    assert KeywordPatches([broken]) == KeywordPatches([broken][..0]) + [];
    assert KeywordPatches([broken]) == [];
    assert TaggedPatches(refs) == [];
    assert KeywordPatches(refs) == [u];
  }

  lemma {:induction false} ContainsAt(hay: string, needle: string, i: nat)
    requires i + |needle| <= |hay| && hay[i..i + |needle|] == needle
    ensures Contains(hay, needle)
    decreases i
  {
    if i > 0 {
      assert hay[1..][i - 1..i - 1 + |needle|] == needle;
      ContainsAt(hay[1..], needle, i - 1);
    }
  }
}
