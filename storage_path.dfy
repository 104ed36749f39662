/**
 * The storage path rule shared by the clients: a proof file of user `u`
 * for task `t` named `f` lives at `u/t/f` in the `proofs` bucket, the
 * layout the storage access policy and the signed-URL route rely on.
 */
module StoragePath {
  import opened Strs

  /** `proofPath(userId, taskId, fileName)`. */
  function ProofPath(userId: string, taskId: string, fileName: string): (p: string)
    ensures |p| == |userId| + |taskId| + |fileName| + 2
    ensures userId + "/" <= p
    ensures p[|userId| + 1..] == taskId + "/" + fileName
  {
    userId + "/" + taskId + "/" + fileName
  }

  /**
   * When no component contains `/`, the path splits back into exactly the
   * three components it was built from.
   */
  lemma ProofPathSplit(userId: string, taskId: string, fileName: string)
    requires '/' !in userId && '/' !in taskId && '/' !in fileName
    ensures Split(ProofPath(userId, taskId, fileName), '/') == [userId, taskId, fileName]
  {
    var rest := taskId + "/" + fileName;
    assert ProofPath(userId, taskId, fileName) == userId + ['/'] + rest;
    SplitAfter(userId, '/', rest);
    assert rest == taskId + ['/'] + fileName;
    SplitAfter(taskId, '/', fileName);
    SplitNone(fileName, '/');
  }

  /**
   * The owner folder of a built path is the user id whenever the user id
   * has no `/`, whatever the task id and file name are.
   */
  lemma ProofPathOwner(userId: string, taskId: string, fileName: string)
    requires '/' !in userId
    ensures BeforeFirst(ProofPath(userId, taskId, fileName), '/') == userId
  {
    var rest := taskId + "/" + fileName;
    assert ProofPath(userId, taskId, fileName) == userId + ['/'] + rest;
    IndexOfAfter(userId, '/', rest);
  }
}
