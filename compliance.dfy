/** The compliance page (src/pages/admin/AdminCompliancePage.tsx): the KYC
    review queue picked from all documents, the pending count, the empty
    state and the approval message. Documents arrive untyped, so they are
    `Value`s. */
module AdminCompliance {
  import opened Values
  import opened Text

  /** A document needs review when its DocuSign envelope was sent or its own
      status is `pending_review`. */
  predicate NeedsReview(d: Value) {
    StrictEquals(Get(Get(d, "docusign"), "status"), Str("sent"))
    || StrictEquals(Get(d, "status"), Str("pending_review"))
  }

  lemma NeedsReviewRule(d: Value)
    ensures NeedsReview(d) <==> Get(Get(d, "docusign"), "status") == Str("sent")
                                || Get(d, "status") == Str("pending_review")
  {
  }

  /** `documents.filter(...)`. */
  function Queue(documents: seq<Value>): (queue: seq<Value>)
    ensures |queue| <= |documents|
    ensures forall i :: 0 <= i < |queue| ==> NeedsReview(queue[i])
  {
    if documents == [] then []
    else if NeedsReview(documents[0]) then [documents[0]] + Queue(documents[1..])
    else Queue(documents[1..])
  }

  /** The query result is `undefined` while it loads, and `|| []` makes that empty. */
  function KycQueue(documents: Option<seq<Value>>): seq<Value> {
    if documents.None? then [] else Queue(documents.value)
  }

  /** A document is queued exactly when it is one of the documents and needs review. */
  lemma {:induction false} QueueMembers(documents: seq<Value>, d: Value)
    ensures d in Queue(documents) <==> d in documents && NeedsReview(d)
  {
    if documents != [] {
      QueueMembers(documents[1..], d);
      assert documents == [documents[0]] + documents[1..];
    }
  }

  /** `a` is `b` with some elements dropped and the rest in order. */
  predicate IsSubsequence(a: seq<Value>, b: seq<Value>)
    decreases |b|
  {
    if a == [] then true
    else if b == [] then false
    else if a[0] == b[0] then IsSubsequence(a[1..], b[1..])
    else IsSubsequence(a, b[1..])
  }

  /** The queue keeps the documents' order. */
  lemma {:induction false} QueueIsSubsequence(documents: seq<Value>)
    ensures IsSubsequence(Queue(documents), documents)
  {
    if documents != [] {
      QueueIsSubsequence(documents[1..]);
    }
  }

  /** Filtering twice changes nothing. */
  lemma {:induction false} QueueIdempotent(documents: seq<Value>)
    ensures Queue(Queue(documents)) == Queue(documents)
  {
    if documents != [] {
      QueueIdempotent(documents[1..]);
    }
  }

  /** Order kept, joined lists filter piecewise. */
  lemma {:induction false} QueueAppend(a: seq<Value>, b: seq<Value>)
    ensures Queue(a + b) == Queue(a) + Queue(b)
  {
    if a == [] {
      assert a + b == b;
    } else {
      assert (a + b)[1..] == a[1..] + b;
      QueueAppend(a[1..], b);
    }
  }

  /** What the page derives from the queue. */
  datatype ComplianceView = ComplianceView(pendingCount: nat, allClean: bool, queue: seq<Value>)

  function View(documents: Option<seq<Value>>): (v: ComplianceView)
    ensures v.pendingCount == |v.queue| && v.queue == KycQueue(documents)
  {
    var queue := KycQueue(documents);
    ComplianceView(|queue|, |queue| == 0, queue)
  }

  /** The count is zero and the page says "All clean" exactly when no document
      needs review. */
  lemma AllCleanRule(documents: Option<seq<Value>>)
    ensures View(documents).allClean <==> View(documents).pendingCount == 0
    ensures View(documents).allClean <==>
            (documents.None? || forall d :: d in documents.value ==> !NeedsReview(d))
  {
    if documents.Some? {
      var queue := Queue(documents.value);
      if queue != [] {
        assert queue[0] in queue;
        QueueMembers(documents.value, queue[0]);
      }
      forall d | d in documents.value && NeedsReview(d)
        ensures queue != []
      {
        QueueMembers(documents.value, d);
      }
    }
  }

  /** The toast text of an approval. */
  function ApprovalMessage(id: string): string {
    "KYC Request " + Take(id, 6) + " Approved"
  }

  /** The message shows the id's first six characters, or all of a shorter id. */
  lemma ApprovalMessageRule(id: string)
    ensures var m := ApprovalMessage(id);
      && m[..12] == "KYC Request "
      && m[12..|m| - 9] <= id
      && |m| == 21 + (if |id| < 6 then |id| else 6)
      && m[|m| - 9..] == " Approved"
  {
  }

  /** Two ids that differ within their first six characters give different
      messages. */
  lemma ApprovalMessageDistinguishes(a: string, b: string)
    requires |a| >= 6 && |b| >= 6 && a[..6] != b[..6]
    ensures ApprovalMessage(a) != ApprovalMessage(b)
  {
    var ma := ApprovalMessage(a);
    assert ma[12..18] == a[..6];
    assert ApprovalMessage(b)[12..18] == b[..6];
  }
}
