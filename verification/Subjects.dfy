/** Authenticated principals (api/app/auth/subject.py). */
module Subjects {
  datatype SubjectType = ApiKey | OAuthSubject

  datatype Subject = Subject(tenant: string, kind: SubjectType, id: string)
}
