/** `URLSearchParams` as the front end's `getObservations` uses it: the
    name/value pairs it is given and the query string `toString()` writes. */
module SearchParams {
  import opened Text
  import opened FormEncoding

  /** The pairs `getObservations` hands to `URLSearchParams`: `from`, then
      `until`, then one `datastreamIds` pair per id in the order given. */
  function ObservationPairs(from: string, until: string, ids: seq<string>): (ps: seq<(string, string)>)
    ensures |ps| == 2 + |ids|
    ensures ps[0] == ("from", from) && ps[1] == ("until", until)
    ensures forall k :: 0 <= k < |ids| ==> ps[2 + k] == ("datastreamIds", ids[k])
  {
    [("from", from), ("until", until)]
      + seq(|ids|, k requires 0 <= k < |ids| => ("datastreamIds", ids[k]))
  }

  /** `URLSearchParams.toString()`: `name=value` pairs joined by `&`, each
      name and value passed through the form encoder. No colon survives. */
  function Serialize(ps: seq<(string, string)>): (s: string)
    ensures ':' !in s
  {
    JoinAvoids(Assignments(ps), "&", ':');
    Join(Assignments(ps), "&")
  }

  /** One pair as `name=value`, both sides encoded. */
  function Assignment(p: (string, string)): (x: string)
    ensures ':' !in x
  {
    FormEncode(p.0) + "=" + FormEncode(p.1)
  }

  /** Each pair as `name=value`, in order. */
  function Assignments(ps: seq<(string, string)>): (xs: seq<string>)
    ensures |xs| == |ps|
    ensures Free(xs, ':')
  {
    seq(|ps|, k requires 0 <= k < |ps| => Assignment(ps[k]))
  }

  /** Each parameter name passes the encoder unchanged, so its pair is
      written `name=` and the encoded value. */
  lemma FromAssignment(v: string)
    ensures Assignment(("from", v)) == "from=" + FormEncode(v)
  {
    FormEncodeUnchanged("from");
    assert AllUnreserved("from");
    assert "from" + "=" == "from=";
  }

  lemma UntilAssignment(v: string)
    ensures Assignment(("until", v)) == "until=" + FormEncode(v)
  {
    FormEncodeUnchanged("until");
    assert AllUnreserved("until");
    assert "until" + "=" == "until=";
  }

  lemma IdsKeyKept()
    ensures FormEncode("datastreamIds") == "datastreamIds"
  {
    assert AllUnreserved("datastreamIds") by {
      assert AllUnreserved("datastr");
      AllUnreservedAppend("datastr", "eamIds");
      assert "datastreamIds" == "datastr" + "eamIds";
    }
    FormEncodeUnchanged("datastreamIds");
  }

  lemma IdsAssignment(v: string)
    ensures Assignment(("datastreamIds", v)) == "datastreamIds=" + FormEncode(v)
  {
    IdsKeyKept();
    assert "datastreamIds" + "=" == "datastreamIds=";
  }

  lemma JoinThree(a: string, b: string, c: string, sep: string)
    ensures Join([a, b, c], sep) == a + sep + (b + sep + c)
  {
    assert [a, b, c] == [a] + [b, c];
    assert [b, c] == [b] + [c];
    JoinCons(b, [c], sep);
    JoinCons(a, [b, c], sep);
  }

  /** The pairs of any query, written out: `from`, `until`, then one
      `datastreamIds` assignment per id. */
  lemma PairsAssignments(f: string, u: string, ids: seq<string>)
    ensures Assignments(ObservationPairs(f, u, ids))
      == ["from=" + FormEncode(f), "until=" + FormEncode(u)] + IdAssignments(ids)
  {
    var xs := Assignments(ObservationPairs(f, u, ids));
    var ys := ["from=" + FormEncode(f), "until=" + FormEncode(u)] + IdAssignments(ids);
    assert xs[0] == ys[0] by {
      FromAssignment(f);
    }
    assert xs[1] == ys[1] by {
      UntilAssignment(u);
    }
    forall k | 2 <= k < |xs| ensures xs[k] == ys[k] {
      IdAssignmentAt(f, u, ids, k);
    }
  }

  /** Past the two bounds, the k-th assignment is that of id k - 2. */
  lemma IdAssignmentAt(f: string, u: string, ids: seq<string>, k: nat)
    requires 2 <= k < 2 + |ids|
    ensures Assignments(ObservationPairs(f, u, ids))[k] == "datastreamIds=" + FormEncode(ids[k - 2])
  {
    assert ObservationPairs(f, u, ids)[k] == ("datastreamIds", ids[k - 2]);
    IdsAssignment(ids[k - 2]);
  }

  /** One `datastreamIds=` assignment per id. */
  function IdAssignments(ids: seq<string>): (xs: seq<string>)
    ensures |xs| == |ids|
  {
    seq(|ids|, k requires 0 <= k < |ids| => "datastreamIds=" + FormEncode(ids[k]))
  }

  lemma OneIdAssignments(f: string, u: string, id: string)
    ensures Assignments(ObservationPairs(f, u, [id]))
      == ["from=" + FormEncode(f), "until=" + FormEncode(u), "datastreamIds=" + FormEncode(id)]
  {
    PairsAssignments(f, u, [id]);
  }

  lemma TwoIdAssignments(f: string, u: string, a: string, b: string)
    ensures Assignments(ObservationPairs(f, u, [a, b]))
      == ["from=" + FormEncode(f), "until=" + FormEncode(u), "datastreamIds=" + FormEncode(a),
          "datastreamIds=" + FormEncode(b)]
  {
    PairsAssignments(f, u, [a, b]);
  }

  /** The query string of one id whose texts the encoder keeps, spelled out. */
  lemma SerializeOneId(f: string, u: string, id: string)
    requires AllUnreserved(f) && AllUnreserved(u) && AllUnreserved(id)
    ensures Serialize(ObservationPairs(f, u, [id])) == "from=" + f + "&" + ("until=" + u + "&" + ("datastreamIds=" + id))
  {
    OneIdAssignments(f, u, id);
    FormEncodeUnchanged(f);
    FormEncodeUnchanged(u);
    FormEncodeUnchanged(id);
    JoinThree("from=" + f, "until=" + u, "datastreamIds=" + id, "&");
  }
}
