/**
 * The identity tests `validate_doctor` applies to a search hit. Both service
 * versions use the same tests: only the candidate's strings are lower-cased;
 * the stored subject and service names are compared as stored.
 */
module DoctorMatching {
  import opened Wrappers
  import opened Text
  import opened SearchModel
  import opened Documents
  import Iter

  /** The hit's title is exactly the stored doctor name (case-sensitive). */
  predicate NameMatches(item: ResultItem, target: Doctor) {
    item.title == Some(target.doctorName)
  }

  /** A subject matches when it has a name whose lower-cased form contains the stored subject name. */
  predicate SubjectMatches(subject: Subject, subjectName: string) {
    subject.name.Some? && Contains(Lower(subject.name.value), subjectName)
  }

  /** `names.iter().any(...)`: some lower-cased entry of `names` contains the stored subject name. */
  predicate AnySubjectName(names: seq<string>, subjectName: string) {
    names != [] && (Contains(Lower(names[0]), subjectName) || AnySubjectName(names[1..], subjectName))
  }

  /** `AnySubjectName` holds exactly when some entry, lower-cased, contains the subject name. */
  lemma {:induction false} AnySubjectNameIff(names: seq<string>, subjectName: string)
    ensures AnySubjectName(names, subjectName) <==>
      exists i :: 0 <= i < |names| && Contains(Lower(names[i]), subjectName)
  {
    if names != [] {
      AnySubjectNameIff(names[1..], subjectName);
      assert forall i :: 1 <= i < |names| ==> names[i] == names[1..][i - 1];
    }
  }

  /**
   * A service matches when its lower-cased name equals the stored service name and
   * one of its subject names matches the stored subject name.
   */
  predicate ServiceMatches(service: Service, serviceName: string, subjectName: string) {
    && service.name.Some?
    && Lower(service.name.value) == serviceName
    && service.subjectNames.Some?
    && AnySubjectName(service.subjectNames.value, subjectName)
  }

  /** The hit's partner is present and names the stored hospital and city. */
  predicate PartnerMatches(item: ResultItem, target: Doctor) {
    && item.partner.Some?
    && item.partner.value.partnerId == Some(target.hospitalId)
    && item.partner.value.cityId == Some(target.cityId)
  }

  /** `subjects.iter().find(...)`: the first matching subject in list order. */
  function FindSubject(subjects: seq<Subject>, target: Doctor): Option<Subject> {
    Iter.Find(subjects, (s: Subject) => SubjectMatches(s, target.subjectName))
  }

  /** `services.iter().find(...)`: the first matching service in list order. */
  function FindService(services: seq<Service>, target: Doctor): Option<Service> {
    Iter.Find(services, (s: Service) => ServiceMatches(s, target.serviceName, target.subjectName))
  }

  /** No subject is found exactly when none matches; a found subject is the first that matches. */
  lemma FindSubjectSpec(subjects: seq<Subject>, target: Doctor)
    ensures FindSubject(subjects, target).None? <==>
      forall i :: 0 <= i < |subjects| ==> !SubjectMatches(subjects[i], target.subjectName)
    ensures FindSubject(subjects, target).Some? ==>
      exists i :: 0 <= i < |subjects| && subjects[i] == FindSubject(subjects, target).value
        && SubjectMatches(subjects[i], target.subjectName)
        && forall j :: 0 <= j < i ==> !SubjectMatches(subjects[j], target.subjectName)
  {
  }


  /** No service is found exactly when none matches; a found service is the first that matches. */
  lemma FindServiceSpec(services: seq<Service>, target: Doctor)
    ensures FindService(services, target).None? <==>
      forall i :: 0 <= i < |services| ==> !ServiceMatches(services[i], target.serviceName, target.subjectName)
    ensures FindService(services, target).Some? ==>
      exists i :: 0 <= i < |services| && services[i] == FindService(services, target).value
        && ServiceMatches(services[i], target.serviceName, target.subjectName)
        && forall j :: 0 <= j < i ==> !ServiceMatches(services[j], target.serviceName, target.subjectName)
  {
  }


  /**
   * A stored subject name with an upper-case letter matches no subject: the stored
   * name is never lower-cased, while the candidate's name is.
   */
  lemma UpperSubjectNameMatchesNoSubject(subject: Subject, subjectName: string)
    requires !IsLower(subjectName)
    ensures !SubjectMatches(subject, subjectName)
  {
  }


  /** A stored subject name with an upper-case letter matches no service either, whatever its name. */
  lemma UpperSubjectNameMatchesNoService(service: Service, serviceName: string, subjectName: string)
    requires !IsLower(subjectName)
    ensures !ServiceMatches(service, serviceName, subjectName)
  {
    if service.subjectNames.Some? {
      var names := service.subjectNames.value;
      forall i | 0 <= i < |names| ensures !Contains(Lower(names[i]), subjectName) {
        LowerNeverContainsUpper(names[i], subjectName);
      }
      AnySubjectNameIff(names, subjectName);
    }
  }

  /** A stored service name with an upper-case letter matches no service. */
  lemma UpperServiceNameNeverMatches(service: Service, target: Doctor)
    requires !IsLower(target.serviceName)
    ensures !ServiceMatches(service, target.serviceName, target.subjectName)
  {
  }


  /** Case does not matter on the candidate side: lower-casing a name first changes no verdict. */
  lemma SubjectMatchIgnoresCandidateCase(id: string, kind: Option<string>, name: string, subjectName: string)
    ensures SubjectMatches(Subject(id, kind, Some(Lower(name))), subjectName)
        <==> SubjectMatches(Subject(id, kind, Some(name)), subjectName)
  {
    LowerIdempotent(name);
  }

  /** An empty stored subject name matches every subject that has a name. */
  lemma EmptySubjectNameMatchesAnyNamed(subject: Subject)
    requires subject.name.Some?
    ensures SubjectMatches(subject, [])
  {
    ContainsEmpty(Lower(subject.name.value));
  }
}
