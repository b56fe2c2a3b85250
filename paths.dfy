/**
 * Document paths. Every per-user document lives under the user's path and
 * every shared document under the public path, so the two never meet and
 * each user's progress is a subtree of its own; the store model keeps one
 * map per collection on the strength of the lemmas below.
 */
module Paths {

  const AppId: string := "highschool-pro-prod"
  const Root: string := "artifacts/" + AppId

  /** `get_user_path(user_id)`. */
  function UserPath(userId: string): (p: string)
    ensures |p| == |Root + "/users/"| + |userId|
    ensures p[..|Root + "/users/"|] == Root + "/users/" && p[|Root + "/users/"|..] == userId
  {
    Root + "/users/" + userId
  }

  /** `get_public_path()`. */
  function PublicPath(): (p: string)
    ensures |p| > |Root| + 1
    ensures p[..|Root| + 1] == Root + "/" && p[|Root| + 1] == 'p'
    ensures forall u :: p != UserPath(u) && UserPath(u)[|Root| + 1] == 'u'
  {
    Root + "/public/data"
  }

  /** Where a progress document is written (the id is the md5 of the point key). */
  function ProgressDocPath(userId: string, docId: string): string
  {
    UserPath(userId) + "/progress/" + docId
  }

  /** The credential document of a user. */
  function AccountPath(userId: string): string
  {
    PublicPath() + "/users/" + userId
  }

  /** The shared statistics document. */
  function StatsPath(): string
  {
    PublicPath() + "/stats/global"
  }

  /** Distinct users have distinct paths. */
  lemma UserPathInjective(a: string, b: string)
    requires UserPath(a) == UserPath(b)
    ensures a == b
  {
    var n := |Root + "/users/"|;
    assert a == UserPath(a)[n..];
    assert b == UserPath(b)[n..];
  }

  /** Distinct account ids have distinct credential documents. */
  lemma AccountPathInjective(a: string, b: string)
    requires AccountPath(a) == AccountPath(b)
    ensures a == b
  {
    var n := |PublicPath() + "/users/"|;
    assert a == AccountPath(a)[n..];
    assert b == AccountPath(b)[n..];
  }

  /** No progress document shares a path with a credential document or with
      the statistics document: the per-user and public trees are disjoint. */
  lemma ProgressApartFromPublic(userId: string, docId: string, account: string)
    ensures ProgressDocPath(userId, docId) != AccountPath(account)
    ensures ProgressDocPath(userId, docId) != StatsPath()
  {
    var k := |Root| + 1;
    assert ProgressDocPath(userId, docId)[k] == 'u';
    assert AccountPath(account)[k] == 'p';
    assert StatsPath()[k] == 'p';
  }

  /** The statistics document is not any user's credential document. */
  lemma StatsApartFromAccounts(account: string)
    ensures StatsPath() != AccountPath(account)
  {
    var k := |PublicPath()| + 1;
    assert StatsPath()[k] == 's';
    assert AccountPath(account)[k] == 'u';
  }
}
