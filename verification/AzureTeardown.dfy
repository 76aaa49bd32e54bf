/**
 The end of a teardown on Azure, where the guarantee that holds for AWS fails. Both ways in which
 destroyAzureInfrastructure can fail report neither an error nor the request to requeue that
 destroyHypershift looks for, provided that the status write beside them succeeds; so the pass goes on
 to remove the destroy finalizer, with the resources still there.
 */
module AzureTeardown {
  import opened Lifecycle

  /**
   What happens to the calls of one pass: whether the credentials parse, the status write succeeds, the
   destroyer succeeds (and what it leaves if not), and the closing update succeeds.
   */
  datatype Calls = Calls(credentials: bool, statusWritten: bool, destroyed: bool, left: Stage, updated: bool)

  /** A requeue, and an error. */
  datatype Result = Result(requeue: bool, failed: bool)

  /** The two destroyers differ in what they return: AWS asks for a requeue where Azure only names a delay. */
  datatype Platform = Aws | Azure

  class Deployment {
    const platform: Platform
    const override: Override
    const configure: bool
    var held: bool
    var resources: Stage

    constructor (platform: Platform, override: Override, configure: bool, resources: Stage)
      ensures this.platform == platform && this.override == override && this.configure == configure
      ensures this.resources == resources && held
    {
      this.platform := platform;
      this.override := override;
      this.configure := configure;
      this.resources := resources;
      held := true;
    }

    /** destroyAzureInfrastructure, or the infrastructure half of destroyAWSInfrastructure. */
    method DestroyInfrastructure(calls: Calls) returns (r: Result)
      modifies this`resources
      ensures platform == Azure && !calls.credentials ==> r == Result(false, !calls.statusWritten) && resources == old(resources)
      ensures platform == Aws || calls.credentials ==>
                if calls.destroyed then r == Result(false, false) && resources == Absent
                else r == Result(platform == Aws, !calls.statusWritten) && resources == calls.left
    {
      if platform == Azure && !calls.credentials {
        return Result(false, !calls.statusWritten);
      }
      if calls.destroyed {
        resources := Absent;
        return Result(false, false);
      }
      resources := calls.left;
      return Result(platform == Aws, !calls.statusWritten);
    }

    /** The tail of destroyHypershift: the infrastructure, and the finalizer unless a requeue or an error stops it. */
    method Finish(calls: Calls)
      requires held
      modifies this
      ensures override != Orphan && configure ==>
                held == Stops(platform, calls) && resources == Left(platform, old(resources), calls)
      ensures override == Orphan || !configure ==> held == !calls.updated && resources == old(resources)
      ensures override != Orphan && configure && platform == Aws ==> (!held <==> calls.destroyed && calls.updated)
      ensures override != Orphan && configure && platform == Azure ==>
                (!held <==> calls.updated && ((calls.credentials && calls.destroyed) || calls.statusWritten))
    {
      if override != Orphan && configure {
        var r := DestroyInfrastructure(calls);
        if r.failed || r.requeue {
          return;
        }
      }
      held := held && !calls.updated;
    }
  }

  /** The destroyer did its work. */
  predicate Cleaned(platform: Platform, calls: Calls) {
    (platform == Aws || calls.credentials) && calls.destroyed
  }

  /** The pass ends with the finalizer still there. */
  predicate Stops(platform: Platform, calls: Calls) {
    !calls.updated || (!Cleaned(platform, calls) && (platform == Aws || !calls.statusWritten))
  }

  function Left(platform: Platform, before: Stage, calls: Calls): Stage {
    if Cleaned(platform, calls) then Absent
    else if platform == Azure && !calls.credentials then before
    else calls.left
  }

  /** The finalizer is gone and resources are left. */
  predicate Leaks(platform: Platform, before: Stage, calls: Calls) {
    !Stops(platform, calls) && Left(platform, before, calls) != Absent
  }

  /** On AWS no outcome of the calls leaks. */
  lemma AwsNeverLeaks(before: Stage, calls: Calls)
    ensures !Leaks(Aws, before, calls)
  {
  }

  /**
   On Azure a pass leaks if and only if it meets resources it does not destroy, because the credentials
   do not parse or the destroyer fails part of the way, and both API writes succeed.
   */
  lemma AzureLeaksExactlyWhen(before: Stage, calls: Calls)
    ensures Leaks(Azure, before, calls)
       <==> && calls.statusWritten && calls.updated
            && if calls.credentials then !calls.destroyed && calls.left != Absent else before != Absent
  {
  }

  /** So with credentials that do not parse, the healthier the API server, the surer the leak. */
  lemma BadCredentialsLeak(before: Stage)
    requires before != Absent
    ensures forall destroyed, left :: Leaks(Azure, before, Calls(false, true, destroyed, left, true))
    ensures forall calls: Calls :: calls.credentials && calls.destroyed ==> !Leaks(Azure, before, calls)
  {
  }
}
