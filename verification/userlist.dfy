/**
 * The comma-separated user list that the membership calls send: the provider
 * joins its member IDs with "," and the workspace splits the parameter back
 * into IDs.
 */
module UserList {

  /** A Slack user ID as it may appear in the list: non-empty and free of the separator. */
  predicate ValidUserId(u: string) {
    u != "" && ',' !in u
  }

  predicate AllValid(ids: seq<string>) {
    forall i :: 0 <= i < |ids| ==> ValidUserId(ids[i])
  }

  /** Joins the IDs with "," between neighbours, like Go's strings.Join(ids, ","). */
  function Join(ids: seq<string>): (s: string)
    ensures |ids| > 0 ==> |s| >= |ids[0]|
    ensures |ids| == 0 ==> s == ""
  {
    if |ids| == 0 then ""
    else if |ids| == 1 then ids[0]
    else ids[0] + "," + Join(ids[1..])
  }

  /** The joined parameter is empty only for no IDs or the one empty ID. */
  lemma JoinIsEmpty(ids: seq<string>)
    ensures Join(ids) == "" <==> ids == [] || ids == [""]
  {
    if |ids| > 1 {
      assert |Join(ids)| >= 1;
    }
  }

  /** Every field of `s` between separators, empty fields included. */
  function Fields(s: string): (fs: seq<string>)
    ensures |fs| >= 1
    decreases |s|
  {
    if |s| == 0 then [""]
    else if s[0] == ',' then [""] + Fields(s[1..])
    else
      var rest := Fields(s[1..]);
      [[s[0]] + rest[0]] + rest[1..]
  }

  /** The workspace's reading of a user-list parameter: the empty parameter is the empty list. */
  function Split(s: string): seq<string> {
    if s == "" then [] else Fields(s)
  }

  lemma {:induction false} FieldsOfPlain(u: string)
    requires ',' !in u
    ensures Fields(u) == [u]
    decreases |u|
  {
    if |u| > 0 {
      FieldsOfPlain(u[1..]);
      assert [u[0]] + u[1..] == u;
    }
  }

  lemma {:induction false} FieldsOfCons(u: string, rest: string)
    requires ',' !in u
    ensures Fields(u + "," + rest) == [u] + Fields(rest)
    decreases |u|
  {
    var s := u + "," + rest;
    if |u| == 0 {
      assert s == "," + rest;
      assert s[1..] == rest;
    } else {
      assert s[0] == u[0];
      assert s[1..] == u[1..] + "," + rest;
      FieldsOfCons(u[1..], rest);
      assert [u[0]] + u[1..] == u;
    }
  }

  /** Splitting a joined list of valid IDs gives back the same IDs, in order. */
  lemma {:induction false} SplitJoin(ids: seq<string>)
    requires AllValid(ids)
    ensures Split(Join(ids)) == ids
    decreases |ids|
  {
    if |ids| == 1 {
      FieldsOfPlain(ids[0]);
    } else if |ids| > 1 {
      var tail := ids[1..];
      assert ValidUserId(ids[0]) && ValidUserId(tail[0]);
      assert AllValid(tail) by {
        forall i | 0 <= i < |tail| ensures ValidUserId(tail[i]) {
          assert tail[i] == ids[i + 1];
        }
      }
      SplitJoin(tail);
      FieldsOfCons(ids[0], Join(tail));
      assert Join(tail) != "";
    }
  }
}
