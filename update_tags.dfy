/** The tagging step: merges one account's tags into the company's tag file on S3, and
    writes the file back only when nobody changed it in between (its ETag is unchanged). */
module UpdateTags {
  import opened Documents
  import opened Strings
  import opened Constant
  import opened Base
  import opened Store

  const JSON_ONLY := "File format not supported, Only '.json' format is supported as of now."
  const NOT_ASSIGNABLE := "object does not support item assignment"
  const TAG_PREFIX := "tag-"
  const JSON_SUFFIX := ".json"

  /** An object as `get_object` answers it: its ETag, and its body as parsed JSON (`None`
      for an empty body). */
  datatype S3Object = S3Object(etag: string, body: Option<Value>)

  /** The answers of the two reads of one round of the retry loop. */
  datatype Attempt = Attempt(get: Aws<S3Object>, head: Aws<string>)

  /** `update_tags(tags_data, account)`: the parsed file, or `{}` for no data, with the
      account's entry set. A file whose JSON is not an object cannot take the entry. */
  function MergeTags(data: Option<Value>, accountId: string, tags: Value): (r: StepResult<map<string, Value>>)
  {
    if data.None? then Returned(map[accountId := tags])
    else if data.value.Dict? then Returned(data.value.entries[accountId := tags])
    else Raised(TypeErr(NOT_ASSIGNABLE))
  }

  /** `get_etag(...)`: a missing or unreadable file has the empty ETag. */
  function GetEtag(head: Aws<string>): (r: StepResult<string>)
  {
    match head
    case Ok(etag) => Returned(etag)
    case ClientError(code, message) =>
      if code == "AccessDenied" || code == "404" || code == "403" then Returned("") else Raised(ClientErr(code, message))
    case OtherError(msg) => Raised(Failure(msg))
  }

  /** `get_data(...)`: `None` stands for the `{}` returned for a missing or unreadable
      file; a key that does not look like a JSON file is refused before any call. */
  function GetData(key: string, get: Aws<S3Object>): (r: StepResult<Option<S3Object>>)
  {
    if !AnchoredMatch(key, "", "json") then Raised(Failure(JSON_ONLY))
    else match get
      case Ok(obj) => Returned(Some(obj))
      case ClientError(code, message) =>
        if code == "AccessDenied" || code == "NoSuchKey" then Returned(None) else Raised(ClientErr(code, message))
      case OtherError(msg) => Raised(Failure(msg))
  }

  /** `f"tag-{company}.json"`. */
  function TagFile(company: string): string
  {
    TAG_PREFIX + company + JSON_SUFFIX
  }

  /** How one round of the loop ends. */
  datatype RoundEnd = Written | Retry | Failed(exc: Exc)

  /** One round: what it ends with and the calls it makes. */
  datatype Round = Round(end: RoundEnd, requests: seq<Request>)

  /** The ETag and the data a round works with: those of the object read, when it has
      an ETag. */
  function ObjectTag(obj: Option<S3Object>): string
  {
    if obj.Some? && obj.value.etag != "" then obj.value.etag else ""
  }

  function ObjectData(obj: Option<S3Object>): Option<Value>
  {
    if obj.Some? && obj.value.etag != "" then obj.value.body else None
  }

  /** One pass through the body of `while True`: read the file, merge, compare the ETag
      read with the current one, and write when they agree. */
  function TagRound(a: Attempt, bucket: string, key: string, accountId: string, tags: Value): (r: Round)
  {
    var get := if AnchoredMatch(key, "", "json") then [GetObject(bucket, key)] else [];
    match GetData(key, a.get)
    case Raised(e) => Round(Failed(e), get)
    case Returned(obj) =>
      match MergeTags(ObjectData(obj), accountId, tags)
      case Raised(e) => Round(Failed(e), get)
      case Returned(merged) =>
        match GetEtag(a.head)
        case Raised(e) => Round(Failed(e), get + [HeadObject(bucket, key)])
        case Returned(etag) =>
          if ObjectTag(obj) == etag then Round(Written, get + [HeadObject(bucket, key), PutObject(bucket, key, merged)])
          else Round(Retry, get + [HeadObject(bucket, key)])
  }

  /** What the loop does.  */
  datatype Tagging = Tagging(result: StepResult<()>, requests: seq<Request>)

  /** The loop over the rounds `attempts` answers; running out of them is the Lambda
      being stopped. */
  function Rounds(attempts: seq<Attempt>, bucket: string, key: string, accountId: string, tags: Value): (t: Tagging)
    decreases |attempts|
  {
    if attempts == [] then Tagging(Raised(Timeout), [])
    else
      var r := TagRound(attempts[0], bucket, key, accountId, tags);
      match r.end
      case Written => Tagging(Returned(()), r.requests)
      case Failed(e) => Tagging(Raised(e), r.requests)
      case Retry =>
        var rest := Rounds(attempts[1..], bucket, key, accountId, tags);
        Tagging(rest.result, r.requests + rest.requests)
  }

  /** The answer of the step: the event itself when the account is not tagged, the
      company's status otherwise. */
  datatype TagsOutput = Untouched(event: StepInput) | Tagged(status: CompanyStatus)

  /** `lambda_handler(event)`: the table is read, never written. */
  function TagsSpec(items: map<Key, Record>, cfg: Config, ev: StepInput, attempts: seq<Attempt>): (o: Outcome<TagsOutput>)
  {
    var key := (ev.companyName, ev.accountId);
    if key !in items then Outcome(Raised(IndexErr), [], [], [])
    else
      var account := items[key];
      if account.accountStatus > UPDATED then Outcome(Returned(Untouched(ev)), [], [], [])
      else
        var t := Rounds(attempts, cfg.sharedBucket, TagFile(ev.companyName), account.accountId,
                        if account.tags.Some? then account.tags.value else Null);
        Outcome(if t.result.Returned? then Returned(Tagged(CompanyStatus(Completed, ev.companyName))) else Raised(t.result.exc),
                [], [], t.requests)
  }

  // ---- Properties ----

  /** The merge sets the account's entry and keeps every other entry of the file; with
      no data it starts from an empty file. */
  lemma MergeKeepsOtherAccounts(data: Option<Value>, accountId: string, tags: Value)
    requires data.None? || data.value.Dict?
    ensures var r := MergeTags(data, accountId, tags);
      r.Returned? && accountId in r.value && r.value[accountId] == tags
      && (data.None? ==> r.value.Keys == {accountId})
      && (data.Some? ==> r.value.Keys == data.value.entries.Keys + {accountId}
                         && forall k | k in data.value.entries && k != accountId :: r.value[k] == data.value.entries[k])
  {
  }

  /** The error mapping of the two reads: the named codes answer "" and `{}`, any other
      code is re-raised as it came. */
  lemma ReadErrorMapping(key: string, code: string, message: string)
    requires AnchoredMatch(key, "", "json")
    ensures GetEtag(ClientError(code, message)).Returned? <==> code in {"AccessDenied", "404", "403"}
    ensures GetEtag(ClientError(code, message)).Returned? ==> GetEtag(ClientError(code, message)).value == ""
    ensures GetEtag(ClientError(code, message)).Raised? ==> GetEtag(ClientError(code, message)).exc == ClientErr(code, message)
    ensures GetData(key, ClientError(code, message)).Returned? <==> code in {"AccessDenied", "NoSuchKey"}
    ensures GetData(key, ClientError(code, message)).Returned? ==> GetData(key, ClientError(code, message)).value.None?
    ensures GetData(key, ClientError(code, message)).Raised? ==> GetData(key, ClientError(code, message)).exc == ClientErr(code, message)
  {
  }

  /** The company's tag file is accepted by the `^\S+.json$` check exactly when the company
      name holds no whitespace; otherwise every round fails before reading. */
  lemma TagFileAccepted(company: string)
    ensures AnchoredMatch(TagFile(company), "", "json") <==> NoSpace(company)
  {
    var s := TagFile(company);
    var n := |s| - 5;
    assert s[..n] == TAG_PREFIX + company;
    assert s[n] == '.' && s[n..n] == "" && s[n + 1..] == "json";
    assert s[|s| - 1] == 'n';
    if NoSpace(company) {
      assert NoSpace(s[..n]) by {
        forall i | 0 <= i < n ensures !IsSpace(s[..n][i]) {
          if i >= 4 {
            assert s[..n][i] == company[i - 4];
          }
        }
      }
    }
    if BodyMatches(s, "", "json") {
      forall i | 0 <= i < |company| ensures !IsSpace(company[i]) {
        assert company[i] == s[..n][i + 4];
      }
    }
  }

  /** A round writes exactly when the file was read, the merge took the entry and the
      ETag read with the data is the current one; its last call is then the write of the
      merged file. */
  lemma WriteOnlyOnMatchingEtag(a: Attempt, bucket: string, key: string, accountId: string, tags: Value)
    ensures var r := TagRound(a, bucket, key, accountId, tags);
      var obj := GetData(key, a.get);
      (r.end == Written <==>
         obj.Returned? && MergeTags(ObjectData(obj.value), accountId, tags).Returned?
         && GetEtag(a.head) == Returned(ObjectTag(obj.value)))
      && (r.end == Written ==>
            r.requests[|r.requests| - 1]
              == PutObject(bucket, key, MergeTags(ObjectData(obj.value), accountId, tags).value))
      && (r.end != Written ==> forall q | q in r.requests :: q.op != S3PutObject)
  {
  }

  /** The loop ends with the write of the first round that writes, after rounds that
      only retried; it runs out of rounds exactly when every round retried, and it writes
      at most once. */
  lemma {:induction false} RoundsEnd(attempts: seq<Attempt>, bucket: string, key: string, accountId: string, tags: Value)
    ensures var t := Rounds(attempts, bucket, key, accountId, tags);
      (t.result.Returned? ==>
         exists i | 0 <= i < |attempts| ::
           TagRound(attempts[i], bucket, key, accountId, tags).end == Written
           && forall j | 0 <= j < i :: TagRound(attempts[j], bucket, key, accountId, tags).end == Retry)
      && (t.result == Raised(Timeout) <==>
            forall j | 0 <= j < |attempts| :: TagRound(attempts[j], bucket, key, accountId, tags).end == Retry)
    decreases |attempts|
  {
    if attempts != [] {
      var rest := attempts[1..];
      RoundsEnd(rest, bucket, key, accountId, tags);
      var r := TagRound(attempts[0], bucket, key, accountId, tags);
      if r.end == Retry {
        var t := Rounds(rest, bucket, key, accountId, tags);
        if t.result.Returned? {
          var i :| 0 <= i < |rest| && TagRound(rest[i], bucket, key, accountId, tags).end == Written
                   && forall j | 0 <= j < i :: TagRound(rest[j], bucket, key, accountId, tags).end == Retry;
          assert attempts[i + 1] == rest[i];
          assert forall j | 0 <= j < i + 1 :: TagRound(attempts[j], bucket, key, accountId, tags).end == Retry by {
            forall j | 0 <= j < i + 1 ensures TagRound(attempts[j], bucket, key, accountId, tags).end == Retry {
              if j > 0 {
                assert attempts[j] == rest[j - 1];
              }
            }
          }
        }
        if forall j | 0 <= j < |rest| :: TagRound(rest[j], bucket, key, accountId, tags).end == Retry {
          forall j | 0 <= j < |attempts| ensures TagRound(attempts[j], bucket, key, accountId, tags).end == Retry {
            if j > 0 {
              assert attempts[j] == rest[j - 1];
            }
          }
        }
        if forall j | 0 <= j < |attempts| :: TagRound(attempts[j], bucket, key, accountId, tags).end == Retry {
          forall j | 0 <= j < |rest| ensures TagRound(rest[j], bucket, key, accountId, tags).end == Retry {
            assert rest[j] == attempts[j + 1];
          }
        }
      } else {
        if r.end.Failed? {
          assert r.end.exc != Timeout;
        }
        assert TagRound(attempts[0], bucket, key, accountId, tags).end != Retry;
      }
    }
  }

  /** An account past UPDATED (being decommissioned) gets no tags: the event comes back
      and no call is made; a missing record raises IndexError. */
  lemma DecommissionedNotTagged(items: map<Key, Record>, cfg: Config, ev: StepInput, attempts: seq<Attempt>)
    ensures var o := TagsSpec(items, cfg, ev, attempts);
      var key := (ev.companyName, ev.accountId);
      (key !in items ==> o.result == Raised(IndexErr))
      && (key in items && items[key].accountStatus > UPDATED ==> o.result == Returned(Untouched(ev)) && o.requests == [])
      && o.writes == [] && o.published == []
      && (o.result.Returned? && o.result.value.Tagged? ==> o.result.value.status == CompanyStatus(Completed, ev.companyName))
  {
  }

  // ---- The step ----

  /** One round of the loop, against the request log. */
  method TagRoundRun(b: Backend, a: Attempt, bucket: string, key: string, accountId: string, tags: Value)
    returns (end: RoundEnd)
    modifies b`requests
    ensures var r := TagRound(a, bucket, key, accountId, tags);
      end == r.end && b.requests == old(b.requests) + r.requests
  {
    var objectTag := "";
    var data: Option<Value> := None;
    if !AnchoredMatch(key, "", "json") {
      return Failed(Failure(JSON_ONLY));
    }
    b.Send(GetObject(bucket, key));
    var obj := GetData(key, a.get);
    if obj.Raised? {
      return Failed(obj.exc);
    }
    if obj.value.Some? && obj.value.value.etag != "" {
      objectTag := obj.value.value.etag;
      data := obj.value.value.body;
    }
    var updated := MergeTags(data, accountId, tags);
    if updated.Raised? {
      return Failed(updated.exc);
    }
    b.Send(HeadObject(bucket, key));
    var etag := GetEtag(a.head);
    if etag.Raised? {
      return Failed(etag.exc);
    }
    if objectTag == etag.value {
      b.Send(PutObject(bucket, key, updated.value));
      return Written;
    }
    end := Retry;
  }

  /** The `while True` loop of `lambda_handler`, one round per answer in `attempts`. */
  method RetryRounds(b: Backend, attempts: seq<Attempt>, bucket: string, key: string, accountId: string, tags: Value)
    returns (res: StepResult<()>)
    modifies b`requests
    ensures var t := Rounds(attempts, bucket, key, accountId, tags);
      res == t.result && b.requests == old(b.requests) + t.requests
  {
    ghost var sent: seq<Request> := [];
    var i := 0;
    while i < |attempts|
      invariant 0 <= i <= |attempts|
      invariant b.requests == old(b.requests) + sent
      invariant var all := Rounds(attempts, bucket, key, accountId, tags);
        var rest := Rounds(attempts[i..], bucket, key, accountId, tags);
        all.result == rest.result && all.requests == sent + rest.requests
    {
      ghost var round := TagRound(attempts[i], bucket, key, accountId, tags);
      var end := TagRoundRun(b, attempts[i], bucket, key, accountId, tags);
      assert attempts[i..][1..] == attempts[i + 1..];
      ConcatAssoc(sent, round.requests, Rounds(attempts[i + 1..], bucket, key, accountId, tags).requests);
      ConcatAssoc(old(b.requests), sent, round.requests);
      sent := sent + round.requests;
      if end == Written {
        return Returned(());
      }
      if end.Failed? {
        return Raised(end.exc);
      }
      i := i + 1;
    }
    res := Raised(Timeout);
  }

  /** `lambda_handler(event)`: the guard, then the retry loop over `attempts`. */
  method UpdateTagsRun(b: Backend, cfg: Config, ev: StepInput, attempts: seq<Attempt>) returns (r: StepResult<TagsOutput>)
    modifies b`requests
    ensures var o := TagsSpec(b.items, cfg, ev, attempts);
      r == o.result && b.requests == old(b.requests) + o.requests
  {
    var found := AccountById(b.items, ev.companyName, ev.accountId);
    if found.None? {
      return Raised(IndexErr);
    }
    var account := found.value;
    if account.accountStatus > UPDATED {
      return Returned(Untouched(ev));
    }
    var key := TagFile(ev.companyName);
    var tags := if account.tags.Some? then account.tags.value else Null;
    var res := RetryRounds(b, attempts, cfg.sharedBucket, key, account.accountId, tags);
    if res.Returned? {
      r := Returned(Tagged(CompanyStatus(Completed, ev.companyName)));
    } else {
      r := Raised(res.exc);
    }
  }
}
