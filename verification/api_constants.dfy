/** The bundle keys of a user-service request and the messages of the local
    exceptions. The keys stand for ShizukuApiConstants.USER_SERVICE_ARG_*; that
    class is not part of this model, so the strings are placeholders and the
    model relies only on the keys being pairwise distinct. */
module ApiConstants {

  const ArgId: string := "shizuku:user-service-arg-id"
  const ArgClassName: string := "shizuku:user-service-arg-classname"
  const ArgDebuggable: string := "shizuku:user-service-arg-debuggable"
  const ArgVersionCode: string := "shizuku:user-service-arg-version-code"
  const ArgAlwaysRecreate: string := "shizuku:user-service-arg-always-recreate"
  const ArgProcessName: string := "shizuku:user-service-arg-process-name"
  const ArgPackageName: string := "shizuku:user-service-arg-package-name"

  /** Every key a user-service request may carry. */
  const UserServiceArgKeys: set<string> :=
    {ArgId, ArgClassName, ArgDebuggable, ArgVersionCode, ArgAlwaysRecreate, ArgProcessName, ArgPackageName}

  const NotReceivedMessage: string := "binder haven't been received"
  const SuffixNullMessage: string := "process name suffix must not be null"
  const IdNullMessage: string := "id must not be null"
  const ClassNameNullMessage: string := "classname must not be null"
}
