# CDN-Manager: a verified model

CDN-Manager is a Kubernetes controller that keeps CloudFront distributions and
ACM certificates in line with `Distribution` resources. This project models

* the reconciliation protocol of a `Distribution`: one controller pass over the
  stored object and an AWS account, the provider list, the CloudFront provider
  with its certificate and distribution halves, and the finalizer;
* the API server's optimistic concurrency, and the Distribution controller, the
  Ingress controller and users interleaved between any two API calls;
* the watch on classes and secrets: indexes, listing and queueing;
* the Ingress controller;
* the algorithms inside: sorting and comparing aliases, the serial formatter,
  the recovery of an id from an error message, the method sets.

## How it is built

* `Types`, `DistributionConfig`, `Aws`, `ApiServer`: the resources, the
  CloudFront configuration, and the external stores as total functions.
* `CloudFront`, `Controller`: what a provider call and a pass do, as functions.
* `Clients`, `Providers`, `Reconciler`: the controller's objects, with their
  fields, shared pointers, loops and in-place sort. Every method is proved to do
  what those functions say; `DistributionReconciler.Reconcile` performs
  `Controller.Pass`. The disabling update really goes through an alias of the
  loaded state, and copies of a Distribution really share their array of hosts.
* `Runs`, `Ownership`, `Confinement`, `Provenance`, `SteadyState`,
  `Convergence`, `Teardown`, `FollowUp`: properties of passes and of whole runs.
* `Certificates`, `Requests`, `Reports`, `ProviderLoops`: the certificate half,
  exactly what a pass sends, exactly what it writes down, and which providers it
  calls and with what result.
* `Interleaving`: the object under concurrent writers. `PassIsASchedule` and
  `SyncIsASchedule` tie its steps to the passes of the two controllers.
* `EndToEnd`: from an Ingress to a Distribution that is ready.
* `Watch`, `IngressSync`, `StringSort`, `Serial`, `DistributionId`, `Methods`.

What AWS and the API server are free to do in a pass is one argument,
`Answers`: the set of operations that fail without effect, the names AWS gives
to new resources, the order in which aliases come back, the text of an error.
Assumed of the services: caller references are unique among live distributions,
and an update must keep them; updates and deletions need the current etag; a
deletion needs a disabled and deployed distribution; an update or a creation
starts a deployment; aliases come back in any order and everything else is
echoed; importing with an ARN replaces in place; a new name is not empty and not
in use; an empty ARN is refused. Passes are serial, and each is atomic with
respect to AWS. Runs contain passes, the end of deployments, resources vanishing
or being edited out of band, other people's distributions and certificates
appearing under names not in use, spec edits and deletion requests.

## Where promise and code part

* A certificate that cannot be loaded resets the whole status, ids included
  (`pkg/controller/distribution_controller.go:161-164`). `Ownership.PassNoOrphansIff`
  says exactly when a pass forgets live resources; `Ownership.ResetForgets`,
  `Ownership.UnwrittenCreationForgets` and `Ownership.ResetThenDeletionLeavesIt`
  give instances; a forgotten distribution is found again
  (`Convergence.LostIdIsRecovered`), a forgotten certificate never
  (`Confinement.LeakedForever`).
* A class without a CloudFront block lets a deletion finish with everything
  still live. This is the other forgetting branch: `Ownership.ReleaseForgets`.
* A refused creation takes the first fourteen id characters of the message and
  assumes that they name the object's own distribution
  (`pkg/provider/cloudfront/distribution.go:395-409`). If they name somebody
  else's, that one is put on record, and a deletion disables and deletes it:
  `Provenance.MisnamingHappens`, `Provenance.MisnamedIsDeleted`. Nothing else
  touches other people's resources: `Provenance.RecordsOnlyOwnOverRuns`,
  `Provenance.OthersDistributionUntouched`.
* Errors of writes to the API server are dropped, and a pass that finds its work
  done asks for no other one. So nothing follows a pass over a distribution that
  is already deployed as desired, if the ready status or the finalizer is still
  to be written and cannot be; nor a deletion that finds or takes away the last
  resource, if neither the status nor the finalizer can be written:
  `FollowUp.FollowedUpIff`, `FollowUp.UnwrittenReadyIsStuck`. A certificate that
  cannot be loaded asks for no other pass either.
* An origin request policy without a cache policy is sent as it is, although
  the class documentation says that it needs one:
  `DistributionConfig.AcceptableIff`, `DistributionConfig.OriginRequestPolicyAlone`.
* The TLS block is optional in the resource and in the documentation, but a
  reconcile without it crashes: `Reports.CrashIff`. An Ingress without a TLS
  entry leads to one: `EndToEnd.IngressWithoutTlsCrashes`.
* Without a host, Ready is never reached: a nil alias list is compared with an
  empty one. `Convergence.ReadyWithinThreeRoundsIff` and
  `DistributionConfig.NeedsUpdateIff` have the exact conditions. Nor is it with
  somebody else's distribution on record: `Convergence.NeverReadyWithOthers`.
* The pass that deletes the distribution stores Ready as true, and the write of
  a status makes the removal of the finalizer in the same pass stale; so the
  object goes two passes later: `Teardown.ReleaseIff`, `Teardown.DeletionNeedsBoth`.
* A repeated OPTIONS is repeated in the method list sent to CloudFront:
  `Methods.RepeatsExactlyWhen`.
* `docs/api/distribution.md` writes the TLS modes with capital letters; the code
  compares `both` and `only`, and the model follows the code.
  `docs/guides/ingress-annotations.md` says hosts come from the Ingress rules;
  the code, and the model, take them from the first TLS entry.

## Model

| member | source | states |
|---|---|---|
| Ownership.NoOrphansOverRuns | pkg/controller/distribution_controller.go:122-141 | over every run, with any call or write failing, resources vanishing or being edited, specs and secrets changing and deletion asked for at any time: every live resource the controller created stays on record in the stored status, and the object with its finalizer stays while there is one, if and only if no pass takes a forgetting branch |
| Ownership.PassNoOrphansIff | pkg/controller/distribution_controller.go:108-243 | one pass keeps everything live on record exactly when it does not reset the status of an owner, create under a failed status or finalizer write, or release for a class without CloudFront |
| Ownership.ForgetsWhenWritesLand | pkg/controller/distribution_controller.go:161-164 | when the API server accepts all writes, only the status reset and the release without a provider can lose anything |
| Ownership.OldStatusTracksIff | pkg/provider/cloudfront/provider.go:48-63 | the status a provider call makes names everything live after it; the status it started from does exactly when nothing was created under a new name |
| Ownership.ReconcileCreates | pkg/provider/cloudfront/certificate.go:72-110 | the exact condition, on recorded ids, live resources and failing calls, under which a reconcile creates a certificate or a distribution, and that it creates nothing else |
| Ownership.ReconcileKeeps | pkg/provider/cloudfront/provider.go:48-63 | if the status records everything live before a provider reconcile, the new status does afterwards, whatever failed; a crash changes nothing |
| Ownership.DeleteKeeps | pkg/provider/cloudfront/provider.go:65-87 | after a provider deletion the status still records everything live; nothing new is live and nothing crashes |
| Ownership.ResetForgets | pkg/controller/distribution_controller.go:161-164 | a live recorded distribution and an unreadable secret: the pass loses it |
| Ownership.UnwrittenCreationForgets | pkg/controller/distribution_controller.go:233-243 | the first pass over a new object with a failing status write leaves a certificate and a distribution live and off the record, the certificate for good |
| Ownership.ReleaseForgets | pkg/controller/distribution_controller.go:198-229 | a deletion whose class has no CloudFront block removes the object and leaves its recorded distribution live |
| Ownership.ResetThenDeletionLeavesIt | pkg/controller/distribution_controller.go:130-141 | after such a reset, a deletion request and one pass remove the object and leave the distribution live |
| Ownership.NothingLeftAfterTeardown | pkg/controller/distribution_controller.go:130-141 | from any state on record, four undisturbed deletion rounds remove the object and everything it owned |
| Confinement.PassConfined | pkg/provider/cloudfront/provider.go:48-87 | a pass, from any state and whatever fails, leaves every distribution and certificate but the recorded ones as they were; new ones belong to the object; a new recorded ARN is new to the account |
| Confinement.LeakedForever | pkg/controller/distribution_controller.go:163 | a live certificate that is off the record is never recorded or deleted again, over every run |
| Provenance.PassRecordsOnlyOwnIff | pkg/provider/cloudfront/distribution.go:395-413 | if what is on record and live is the object's own before a pass, it is so afterwards, exactly unless a creation is refused with a message whose first id names a live distribution with another caller reference, and the status is written |
| Provenance.RecordsOnlyOwnOverRuns | pkg/provider/cloudfront/distribution.go:389-419 | over every run the record names only the object's own live resources if and only if no pass misnames |
| Provenance.HonestMessage | pkg/provider/cloudfront/distribution.go:395-409 | a message that names the distribution with the object's caller reference never misnames |
| Provenance.PassLeavesOthersAlone | pkg/provider/cloudfront/provider.go:48-87 | from such a record a pass, however it fails, leaves every distribution with another caller reference and every certificate it did not import as they are |
| Provenance.OthersDistributionUntouched | pkg/provider/cloudfront/provider.go:48-87 | over every run without a misnaming no distribution with another caller reference is changed, disabled or deleted |
| Provenance.OthersCertificateUntouched | pkg/provider/cloudfront/certificate.go:72-127 | nor is any certificate the controller was not given |
| Provenance.ReadyAfterAnyRun | pkg/provider/cloudfront/distribution.go:333-419 | after any run without a misnaming, three healthy passes end Ready exactly when there is a host |
| Provenance.MisnamedIsDeleted | pkg/provider/cloudfront/distribution.go:421-459 | a misnaming, a deletion request, a pass, the end of the deployment and a pass delete an enabled distribution of somebody else |
| Provenance.MisnamingHappens | pkg/provider/cloudfront/distribution.go:407-408 | an own live distribution off the record and a message that begins with another one's id: the pass misnames |
| SteadyState.ReadyIsSound | pkg/controller/distribution_controller.go:168-194 | a reconcile pass that ends Ready leaves the recorded distribution live, enabled, deployed and as desired up to alias order, with the recorded certificate as viewer certificate, and that certificate with the secret's serial |
| SteadyState.EndsReadyIff | pkg/provider/cloudfront/distribution.go:343-378 | seen from the state before, a reconcile ends ready exactly when the certificate step succeeds, CloudFront can be read, there is a host, and the recorded distribution is live, deployed and as desired under the certificate that step leaves; and the status it then makes |
| SteadyState.ReconcileSucceedsIff | pkg/provider/cloudfront/provider.go:48-63 | a provider reconcile succeeds exactly if the certificate step does and the distribution is as desired, or the object's own and updatable, or absent and creatable; and the exact distributions and status it then leaves |
| SteadyState.SteadyIsQuiet | pkg/provider/cloudfront/distribution.go:343-378 | in that state a pass makes two read calls and changes nothing, however the aliases are permuted |
| Convergence.ReadyWithinThreeRoundsIff | pkg/provider/cloudfront/distribution.go:333-419 | from any start of an object with TLS that is not being deleted, three or more healthy passes with deployments finishing in between end Ready exactly when there is a host and the recorded id, if live, is not somebody else's; Ready then is the steady state |
| Convergence.RoundStep | pkg/provider/cloudfront/distribution.go:343-419 | the distance to the goal, at most three, strictly decreases with every such pass and stays zero |
| Convergence.SteadyAfterDistance | pkg/provider/cloudfront/distribution.go:343-419 | with a host and no one else's distribution on record, as many rounds as the distance reach the steady state, and more keep it |
| Convergence.NeverReadyWithoutHosts | pkg/provider/cloudfront/distribution.go:120-132 | without a host no number of healthy passes ends Ready |
| Convergence.NeverReadyWithOthers | pkg/provider/cloudfront/distribution.go:333-378 | with somebody else's live distribution on record, it stays on record and no number of healthy passes ends Ready |
| Convergence.ProviderSettles | pkg/provider/cloudfront/provider.go:48-63 | one healthy provider call makes the certificate right and the configuration as desired, or records the distribution that is in the way; it changes nothing if all is as desired |
| Convergence.LiveSettles | pkg/provider/cloudfront/distribution.go:343-378 | a recorded live distribution ends with the desired configuration, and is not touched if it has it |
| Convergence.MissingSettles | pkg/provider/cloudfront/distribution.go:343-419 | with no live distribution on record one is created as desired, or the existing one is recorded and nothing changes in CloudFront |
| Convergence.LostIdIsRecovered | pkg/provider/cloudfront/distribution.go:395-413 | with the id lost and the UID's distribution live, a pass creates none, stores the live id and asks for an immediate requeue |
| Convergence.RecoveredIdIsChecked | pkg/provider/cloudfront/distribution.go:333-352 | the next pass reads exactly that distribution and creates none |
| Requests.ReconcilePassRequests | pkg/provider/cloudfront/provider.go:48-63 | every request of a reconcile pass is about the recorded resources, carries the current etag and the desired enabled configuration with the certificate the pass puts on record, imports in place exactly over a live recorded ARN, and deletes nothing; no configuration is sent unless the certificate step succeeded |
| Requests.ReconcilePassCalls | pkg/provider/cloudfront/distribution.go:343-419 | the exact sequence of requests of a reconcile pass, by the state before it: look at the certificate, import it over a live one or anew exactly if it is gone or has another serial, look at the distribution, create or update it exactly if it is absent or not as desired |
| Reports.SuccessReportsTheDistribution | pkg/provider/cloudfront/distribution.go:275-283 | after a successful reconcile the status names a live distribution, its domain and deployment state, and Ready is that state |
| Reports.FailureReports | pkg/provider/cloudfront/provider.go:48-63 | the whole status after a failed reconcile: as before if the certificate failed, less a certificate that is gone; as before but Unknown if the read failed; what was read of a live distribution; else Unknown, with the id a refusal names, and no endpoint once the recorded one is gone; no distribution has changed |
| Reports.FailedCreationReports | pkg/provider/cloudfront/distribution.go:395-413 | a failed creation changes no distribution; a refusal records the id its message names, any other error keeps the record |
| Reports.FailedReadStopsDeletion | pkg/provider/cloudfront/distribution.go:307-309 | a read that fails for another reason than not-found makes a deletion fail with one call, and changes the reported state and nothing else |
| Reports.DeletionReportsTheDistribution | pkg/provider/cloudfront/distribution.go:429-455 | the whole status and the outcome of a deletion while the distribution is there: disabled, waited for, or failing to be disabled or deleted |
| Reports.DeletionReportsItsEnd | pkg/provider/cloudfront/provider.go:72-86 | and once it is gone or goes: the record emptied of it, and of the certificate if that can be deleted; an empty ARN makes the deletion fail |
| Reports.DeletionReportsNoEndpoint | pkg/provider/cloudfront/distribution.go:421-459 | a deletion that ends without a recorded distribution reports no endpoint, and it is gone |
| Reports.ResetReportsNothing | pkg/controller/distribution_controller.go:161-164 | with a certificate that cannot be loaded a pass empties the stored status, leaves AWS alone and asks for no other pass |
| Reports.CrashIff | pkg/provider/cloudfront/certificate.go:62-105 | a pass crashes exactly when a CloudFront class meets a Distribution without TLS, unless the lookup of a recorded certificate fails first |
| Certificates.CertificateDone | pkg/provider/cloudfront/certificate.go:54-110 | a successful certificate reconcile leaves a live recorded certificate with the secret's serial |
| Certificates.CertificateCreates | pkg/provider/cloudfront/certificate.go:54-110 | exactly when the certificate step succeeds and when it imports under a new ARN, by the recorded ARN, what is live and the calls that fail; and the ARN it leaves on record |
| SteadyState.ComparisonIff | pkg/provider/cloudfront/distribution.go:354-374 | a pass finds nothing to update exactly when there is a host and the stored configuration is the desired one up to alias order |
| FollowUp.FollowedUpIff | pkg/controller/distribution_controller.go:148-243 | a pass asks for another one, fails or changes the object, or leaves it gone, settled or waiting for its class or secret, unless, and only unless, the state before it is stuck. In a reconcile: the recorded distribution is already deployed as desired and the certificate step works, but the finalizer is missing or the stored status is not the ready one, and the writes this needs fail. In a deletion: the distribution is gone, or disabled, deployed and deletable, the certificate can be deleted, and the writes of status and finalizer fail |
| FollowUp.ErrorByReference | pkg/resolver/distribution_class_reader.go:40-61 | with the class read from the cluster, a pass over an object returns an error exactly if the reference is of an unknown kind |
| FollowUp.UnwrittenReadyIsStuck | pkg/controller/distribution_controller.go:188-194 | the pass that finds the deployment finished and cannot write so leaves the object not ready and asks for no other pass |
| FollowUp.SleepIsSafe | pkg/handler/indexed_reference.go:63-82 | a pass that is not followed and not stuck leaves nothing to do, and no change of a class or secret gives it something to do without queueing the Distribution |
| Teardown.DeletionPassOrder | pkg/provider/cloudfront/provider.go:65-87 | in a deletion pass a distribution is deleted only if live, disabled and deployed, with its current etag; the disabling update changes nothing but Enabled; the certificate is deleted only with the recorded distribution gone; nothing is created, imported or enabled |
| Teardown.DeletionPassCalls | pkg/provider/cloudfront/distribution.go:421-459 | the exact sequence of requests of a deletion pass: look, then disable an enabled distribution or delete a disabled and deployed one, then delete the certificate exactly if the distribution is gone |
| Teardown.ReleaseIff | pkg/controller/distribution_controller.go:130-141 | the object goes exactly in a pass that finds both ids empty (or no provider) and not Ready, that is, one that writes no status; such a pass changes nothing in AWS |
| Teardown.PassStage | pkg/provider/cloudfront/distribution.go:421-459 | no pass, however it fails, sets a teardown back, and one that is failure-free and not waiting for AWS moves it on |
| Teardown.TeardownTerminates | pkg/controller/distribution_controller.go:198-229 | over any run without tampering at most seven passes are productive, each using up a stage |
| Teardown.GoneWithinFourRounds | pkg/controller/distribution_controller.go:130-141 | four failure-free rounds release any object in deletion |
| Teardown.ReleasedWithinTwoMore | pkg/controller/distribution_controller.go:233-243 | once both ids are empty two failure-free passes release the object |
| Teardown.DeletionNeedsBoth | pkg/provider/cloudfront/distribution.go:275-283 | after the pass that deletes the distribution both are needed: it stores Ready, which the next one takes back |
| ProviderLoops.RunsFirstWanting | pkg/controller/distribution_controller.go:173-186 | with any provider list a reconcile is the call of the first provider that wants the class, or none |
| ProviderLoops.AnswersForItself | pkg/provider/cloudfront/provider.go:42-44 | the CloudFront provider wants the classes with a CloudFront block; a second one is asked only for others, through its own functions |
| ProviderLoops.RunsAllWanting | pkg/controller/distribution_controller.go:210-223 | a deletion is the calls of exactly the wanting providers |
| ProviderLoops.DeletionInOrder | pkg/controller/distribution_controller.go:210-223 | in list order, each from the state the one before left |
| ProviderLoops.LastProviderRuns | pkg/controller/distribution_controller.go:210-223 | a further provider is asked if it wants the class, whether or not an earlier one failed, and its failure is kept |
| ProviderLoops.ProviderEffectsStand | pkg/controller/distribution_controller.go:148-229 | the account after a pass is what the providers left, even if one crashed, and a crash changes nothing of the object but the finalizer |
| ProviderLoops.ReconcileRequeue | pkg/controller/distribution_controller.go:176-194 | with any providers, a reconcile crashes exactly if the provider does; else it asks for an immediate requeue exactly if the provider failed, for one in a minute exactly if it succeeded and is not ready, and for neither if the certificate could not be loaded |
| ProviderLoops.DeleteRequeue | pkg/controller/distribution_controller.go:215-228 | a deletion asks for an immediate requeue exactly if some provider failed, and for one in a minute exactly if none did and something is left |
| ProviderLoops.ErrorIff | pkg/controller/distribution_controller.go:112-120 | a pass returns an error exactly if the object exists and its class could not be looked up for another reason than not-found |
| ProviderLoops.NothingToDo | pkg/controller/distribution_controller.go:112-144 | with the object gone, the class not found or not readable, or an object in deletion without the finalizer, a pass changes nothing and asks for neither requeue nor delay |
| ProviderLoops.PassKeepsSpec | pkg/controller/distribution_controller.go:108-144 | no pass with any providers changes the stored spec, metadata or uid |
| ProviderLoops.StatusWriteIgnoresSpec | pkg/controller/distribution_controller.go:233-243 | what a status write stores does not depend on the spec of its copy, sorted or not |
| Runs.ReconcilePassShape | pkg/controller/distribution_controller.go:148-195 | with the one provider: the account, the finalizer, the status stored and the result of a reconcile pass |
| Runs.DeletePassShape | pkg/controller/distribution_controller.go:198-229 | with the one provider: the account and status after a deletion pass, and exactly when it releases the object |
| Reconciler.DistributionReconciler.Reconcile | pkg/controller/distribution_controller.go:108-144 | the method does to the stored object and the account what Controller.Pass says, for any provider list, with the shared hosts sorted in place on the way |
| Reconciler.DistributionReconciler.ReconcileProviders | pkg/controller/distribution_controller.go:148-195 | the loop with its break, the status it builds and stores, and its result |
| Reconciler.DistributionReconciler.DeleteProviders | pkg/controller/distribution_controller.go:198-229 | the loop over one shared status; allDeleted holds exactly if no provider wants the class or both ids are empty at the end |
| Reconciler.DistributionReconciler.UpdateStatus | pkg/controller/distribution_controller.go:233-243 | writes a changed status from a copy; the caller's version stays |
| Providers.CertificateProvider.Reconcile | pkg/provider/cloudfront/certificate.go:54-60 | account, status and outcome after the step-by-step method are those of the functional description, whose effects CertificateDone, ReconcileCreates and PassConfined state |
| Providers.CertificateProvider.Check | pkg/provider/cloudfront/certificate.go:72-89 | a recorded certificate is imported anew if it is gone, in place if its serial differs, and left alone otherwise; a failing lookup changes nothing |
| Providers.CertificateProvider.Create | pkg/provider/cloudfront/certificate.go:91-110 | an import in place or anew, by the recorded ARN; the ARN it yields is recorded |
| Providers.CertificateProvider.Delete | pkg/provider/cloudfront/certificate.go:112-127 | the record is cleared if the certificate was deleted or is gone, and kept on any other error |
| Providers.DistributionProvider.CalculateAliases | pkg/provider/cloudfront/distribution.go:120-132 | the shared hosts are sorted in place; the aliases are that order, or nil without hosts |
| Providers.DistributionProvider.GenerateDistributionConfig | pkg/provider/cloudfront/distribution.go:182-272 | a fresh configuration, the desired one for the spec, class and recorded certificate |
| Providers.DistributionProvider.SetStatus | pkg/provider/cloudfront/distribution.go:275-283 | the status takes id, state and domain of the loaded distribution |
| Providers.DistributionProvider.Load | pkg/provider/cloudfront/distribution.go:297-315 | the three outcomes of a load, with a fresh object for a found distribution |
| Providers.DistributionProvider.Update | pkg/provider/cloudfront/distribution.go:317-331 | sends the desired state as it is now |
| Providers.DistributionProvider.Reconcile | pkg/provider/cloudfront/distribution.go:333-339 | account, status and outcome are those of the functional description, whose effects ProviderSettles, ReadyIsSound and ReconcilePassRequests state; the shared hosts are left as they were or sorted |
| Providers.DistributionProvider.Check | pkg/provider/cloudfront/distribution.go:343-378 | a distribution that is gone is created again, one that differs is updated with the etag just read, any other is left alone |
| Providers.DistributionProvider.NormaliseAliases | pkg/provider/cloudfront/distribution.go:364-369 | the loaded aliases become a sorted, never nil, copy; nothing else changes |
| Providers.DistributionProvider.Create | pkg/provider/cloudfront/distribution.go:389-419 | a creation from the desired state; a refused one records the id in the message, any other error keeps the record |
| Providers.DistributionProvider.Delete | pkg/provider/cloudfront/distribution.go:421-459 | an enabled distribution is disabled, through the alias of the loaded configuration, one in progress is left, any other deleted and taken off the record |
| Providers.ReconcileCloudFront | pkg/provider/cloudfront/provider.go:48-63 | certificate first, then distribution, over one status |
| Providers.DeleteCloudFront | pkg/provider/cloudfront/provider.go:65-87 | distribution first, the certificate only when it is off the record |
| DistributionConfig.NeedsUpdateIff | pkg/provider/cloudfront/distribution.go:364-376 | an update is asked for exactly when the configurations differ in more than alias order, or there is no host |
| DistributionConfig.EditMattersIff | pkg/provider/cloudfront/distribution.go:182-272 | two specs and classes ask for the same configuration exactly when they agree on origin, hosts as a multiset, handling of HTTP, certificate, SSL mode with one, policies and method lists |
| DistributionConfig.DesiredMeans | pkg/provider/cloudfront/distribution.go:182-236 | caller reference, origin host and ports, target, comment, and the hosts as ordered aliases, nil without hosts |
| DistributionConfig.CertificateMeans | pkg/provider/cloudfront/distribution.go:99-118 | the viewer certificate is the recorded one, with the class's SSL mode and TLSv1.2_2021, or CloudFront's default |
| DistributionConfig.BehaviorMeans | pkg/provider/cloudfront/distribution.go:134-175 | viewer policy by the handling of HTTP, policies of the class, forwarded values and TTLs only without a cache policy, and their values |
| DistributionConfig.HandlingMeans | pkg/provider/cloudfront/distribution.go:86-97 | HTTP is served without TLS or with mode both, refused with mode only, redirected otherwise |
| DistributionConfig.AcceptableIff | pkg/provider/cloudfront/api/v1alpha1/cloudfront_types.go:34-55 | a desired configuration meets the demands on policies, methods and aliases exactly when hosts come with a certificate, an origin request policy with a cache policy, and OPTIONS is not repeated without a writing method |
| DistributionConfig.OriginRequestPolicyAlone | pkg/provider/cloudfront/distribution.go:246-247 | a class with an origin request policy alone makes every configuration unacceptable |
| StringSort.SortInPlace | pkg/provider/cloudfront/distribution.go:126 | an in-place sort computes the sorted sequence |
| StringSort.SortedIsSort | pkg/provider/cloudfront/distribution.go:368 | the sorted sequence is ordered and a rearrangement |
| StringSort.LeIff | pkg/provider/cloudfront/distribution.go:126 | the order is the lexicographic one: a prefix first, else the smaller character at the first difference |
| StringSort.OrderedUnique | pkg/provider/cloudfront/distribution.go:356-363 | ordered sequences with the same elements are equal |
| StringSort.SortedEqualIffPermutation | pkg/provider/cloudfront/distribution.go:356-372 | sorted sequences are equal exactly when the originals are permutations of each other |
| Serial.GetSerialIsColonHex | pkg/provider/cloudfront/certificate.go:62-70 | for every serial the formatter yields its octets in hexadecimal, most significant first, with colons between: ACM's format |
| Serial.SerialRoundTrip | pkg/provider/cloudfront/certificate.go:62-70 | the text reads back as the serial, for every natural number; section 4.1.2.2 of RFC 5280 gives the domain |
| Serial.PairsAt | pkg/provider/cloudfront/certificate.go:63-69 | the replacement keeps every character and puts a colon after each complete pair |
| Serial.TrimsAllColons | pkg/provider/cloudfront/certificate.go:69 | trimming removes the colons at the end and nothing else |
| Serial.SerialsDifferIff | pkg/provider/cloudfront/certificate.go:84-86 | the comparison with ACM's text fails exactly when the serials differ |
| DistributionId.IdShape | pkg/provider/cloudfront/distribution.go:407 | an id is fourteen capital letters or digits |
| DistributionId.FindIdIsLeftmost | pkg/provider/cloudfront/distribution.go:407-408 | the result is the first window of fourteen id characters, or empty exactly if there is none |
| DistributionId.NamedIdIsFound | pkg/provider/cloudfront/distribution.go:395-409 | an id in a message is recovered if nothing before it can be taken for one, whatever follows |
| DistributionId.PrefixThenIdIsFound | pkg/provider/cloudfront/distribution.go:395-409 | in particular after any prefix that holds no id and does not end in an id character |
| Methods.CalculateMethods | pkg/provider/cloudfront/distribution.go:70-82 | the loop yields the lists described independently of its order |
| Methods.LeastLevel | pkg/provider/cloudfront/distribution.go:59-82 | as sets, the least of CloudFront's levels covering the request; cached methods are allowed, agree on OPTIONS and never write |
| Methods.MonotoneInRequest | pkg/provider/cloudfront/distribution.go:70-82 | order and repetition do not matter as sets, and asking for more never allows less |
| Methods.RepeatsExactlyWhen | pkg/provider/cloudfront/distribution.go:72-75 | the list has no repetition exactly if OPTIONS is asked for at most once or a writing method is asked for |
| Interleaving.SpecIsLastWritten | pkg/api/v1alpha1/distribution_types.go:34 | in every interleaving of API calls the stored spec is the last one a user or the Ingress controller wrote |
| Interleaving.WritersKeepApart | pkg/controller/distribution_controller.go:122-138 | the Distribution controller never changes spec or metadata, and no one else status or finalizer |
| Interleaving.SortedCopyIsNotStored | pkg/provider/cloudfront/distribution.go:126 | a reconcile that sorts the hosts of its copy does not change the stored spec by the status write |
| Interleaving.OnlyReleaseRemoves | pkg/controller/distribution_controller.go:134-138 | an object with the finalizer goes only by a removal whose copy is current |
| Interleaving.NoFight | pkg/controller/ingress.go:91-102 | while users leave the spec alone and the Ingress asks for the same, the spec stays, whatever passes run in between |
| Interleaving.IngressIsQuiet | pkg/controller/ingress.go:91-102 | and no step of the Ingress controller changes the object, even from a stale copy |
| Interleaving.PassIsASchedule | pkg/controller/distribution_controller.go:108-144 | every pass, with any providers, is one of the schedules of these steps |
| Interleaving.SyncIsASchedule | pkg/controller/ingress.go:59-104 | so is every pass of the Ingress controller, whatever read or write of it fails |
| Interleaving.LastWrittenFromStart | pkg/api/v1alpha1/distribution_types.go:34 | runs that start without an object, both controllers idle, satisfy the invariant |
| ApiServer.WritesApart | pkg/api/v1alpha1/distribution_types.go:34 | a plain update stores everything but status and deletion mark, a status update nothing but the status, each only from a current copy |
| ApiServer.DeletionMarks | pkg/controller/distribution_controller.go:122-141 | a deletion request removes an object without the finalizer and marks one with it |
| Aws.EtagsAreUsedUp | pkg/provider/cloudfront/distribution.go:317-331 | after an accepted update its etag is good for neither another update nor a deletion |
| Aws.DeletionAccepted | pkg/provider/cloudfront/distribution.go:438-448 | CloudFront deletes only a disabled and deployed distribution, with its current etag, and nothing else |
| IngressSync.IngressReconciler.Reconcile | pkg/controller/ingress.go:59-104 | the method performs the sync |
| IngressSync.IngressReconciler.GetDesiredSpec | pkg/controller/ingress.go:108-138 | the spec built field by field is the wanted one |
| IngressSync.SyncIsFixpoint | pkg/controller/ingress.go:76-104 | with working writes one pass makes the stored spec the wanted one, keeps the rest of an existing object, and a second pass writes nothing |
| IngressSync.CreatedForIngress | pkg/resolver/distribution.go:55-71 | the Distribution created for an Ingress is stored under the Ingress's own key, with its labels and the Ingress as its one controlling owner, the wanted spec and an empty status |
| IngressSync.WantedIff | pkg/resolver/ingress_load_balancer.go:28-59 | when a Distribution is wanted; its class by the annotations, origin by the first load balancer with ports 80 and 443, hosts, secret and mode redirect by the first TLS entry |
| IngressSync.WantedClassIsWatched | pkg/resolver/distribution.go:33-50 | the class of a created Distribution is acceptable to the class reader, and its changes queue the Distribution under its own key |
| EndToEnd.IngressWithoutTlsCrashes | pkg/controller/ingress.go:126-135 | an annotated Ingress without a TLS entry yields a Distribution whose first pass with a CloudFront class crashes |
| EndToEnd.IngressReadyIff | pkg/controller/ingress.go:59-138 | three or more healthy passes over the Distribution created for an Ingress end Ready exactly when its first TLS entry names a host |
| Watch.EnqueueRequestForIndexedReference.Enqueue | pkg/handler/indexed_reference.go:63-82 | the listing by index, restricted to the namespace unless cluster-scoped, is added to the queue |
| Watch.EnqueueRequestForIndexedReference.Update | pkg/handler/indexed_reference.go:44-51 | an update event queues for the new object, or the old one |
| Watch.QueuedIffReferencing | pkg/indexer/indexer.go:40-75 | exactly the Distributions that reference the object by kind, name and namespace are queued |
| Watch.IndexedIff | pkg/indexer/distribution.go:31-52 | a Distribution is indexed under the names it references, and under no empty one |
| Watch.UnqueuedReadsTheSame | pkg/resolver/distribution_class_reader.go:40-61 | a Distribution that is not queued has the same class and secret lookups before and after the change |
| Watch.ReferencingReadsTheChange | pkg/resolver/distribution_class_reader.go:40-61 | a Distribution that references the object reads exactly the class spec or secret the change stores, or that it is gone |
| Watch.ReadIff | pkg/resolver/distribution_class_reader.go:40-61 | a class is read exactly if it is stored under the name, in the Distribution's namespace or cluster-wide by its kind; any other kind is refused |
| Watch.SecretReadIff | pkg/controller/distribution_controller.go:155-160 | a secret is read only with TLS, by its name in the Distribution's namespace |
| Watch.QueuedReadsTheObject | pkg/indexer/distribution.go:31-52 | a queued one sees the difference between the object and its absence |

## Left out

- AWS sessions, credentials and roles (`pkg/provider/cloudfront/auth`): one account; a refused call is a failing one. Secrets that hold credentials are not watched, in the code as in the model.
- Parsing of secrets (`pkg/resolver/certificate.go`): a secret resolves to a serial or to an error; certificate bytes, chain and key are not compared by the code and not modelled. The resolver keeps the last secret it read and drops read errors, so what a pass resolves is an input of that pass, tied to nothing (in `FollowUp.SleepIsSafe`, a function of the secret); "the secret's serial" is the serial it was given.
- Interference by AWS within a pass: a pass is atomic with respect to the account, so a resource that vanishes between two calls of one pass is a failing call.
- Staleness of cached reads, rate limits and work-queue order: a read is a fresh snapshot and the queue a set.
- The Quantity fields of CloudFront lists, taken to be the lengths of the lists, and the configuration fields that never vary, carried as one constant.
- Nil and empty Spec.Hosts are one value; nil and empty alias and endpoint lists are kept apart.
- Several Distributions at once: one object is followed. Other objects' resources are in the account; `Provenance` says exactly when they stay untouched.
- Manager set-up, flags, logging, health checks, Helm chart and generated deep copies, which are assumed to give equal, unshared values.
- Watch event methods Create, Delete and Generic, which only call `enqueue`.
- RequeueIfNotReady: returns the changed result instead of writing through a pointer.
