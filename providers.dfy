/** The records every task provider exchanges with the app, and the errors it may throw. */
module Providers {
  import opened Wrappers

  /** A task as a provider sees it. `id` is a UUID's text; `modifiedAt` is in whole seconds. */
  datatype TaskProviderItem = TaskProviderItem(
    id: string,
    remoteID: Option<string>,
    title: string,
    estimatedMinutes: int,
    remainingMinutes: int,
    isActive: bool,
    isCompleted: bool,
    modifiedAt: int)

  /** The memberwise initialiser: every argument is stored as given. */
  function MakeItem(id: string, remoteID: Option<string>, title: string, estimatedMinutes: int,
                    remainingMinutes: int, isActive: bool, isCompleted: bool, modifiedAt: int): (item: TaskProviderItem)
    ensures item.id == id && item.remoteID == remoteID && item.title == title
    ensures item.estimatedMinutes == estimatedMinutes && item.remainingMinutes == remainingMinutes
    ensures item.isActive == isActive && item.isCompleted == isCompleted && item.modifiedAt == modifiedAt
  {
    TaskProviderItem(id, remoteID, title, estimatedMinutes, remainingMinutes, isActive, isCompleted, modifiedAt)
  }

  datatype TaskProviderError =
    | AuthorizationDenied
    | NotConfigured
    | NetworkError(message: string)
    | SyncFailed(message: string)
    | TaskNotFound

  /** What a provider call returns or throws; `ProviderResult<()>` is a call that returns nothing. */
  datatype ProviderResult<T> = Ok(value: T) | Err(error: TaskProviderError)

  const AuthorizationDeniedText: string := "Authorization denied." + " Please grant access in Settings."
  const NotConfiguredText: string := "Provider not configured." + " Please complete setup."
  const TaskNotFoundText: string := "Task not found in remote provider."
  const NetworkErrorPrefix: string := "Network error: "
  const SyncFailedPrefix: string := "Sync failed: "

  /** The user-facing description of an error; every case has one. */
  function ErrorDescription(e: TaskProviderError): (r: Option<string>)
    ensures r.Some? && r.value != []
    ensures e.NetworkError? ==> r.value == NetworkErrorPrefix + e.message
    ensures e.SyncFailed? ==> r.value == SyncFailedPrefix + e.message
  {
    match e
    case AuthorizationDenied => Some(AuthorizationDeniedText)
    case NotConfigured => Some(NotConfiguredText)
    case NetworkError(m) => Some(NetworkErrorPrefix + m)
    case SyncFailed(m) => Some(SyncFailedPrefix + m)
    case TaskNotFound => Some(TaskNotFoundText)
  }

  lemma AuthorizationDeniedInitial()
    ensures AuthorizationDeniedText[0] == 'A'
  {
    PrefixedInitial("Authorization denied.", " Please grant access in Settings.");
  }

  lemma NotConfiguredInitial()
    ensures NotConfiguredText[0] == 'P'
  {
    PrefixedInitial("Provider not configured.", " Please complete setup.");
  }

  lemma PrefixedInitial(prefix: string, m: string)
    requires prefix != []
    ensures (prefix + m)[0] == prefix[0]
  {
  }

  /** The first character of each description tells the cases apart. */
  lemma DescriptionInitial(e: TaskProviderError)
    ensures ErrorDescription(e).value[0]
         == match e
            case AuthorizationDenied => 'A'
            case NotConfigured => 'P'
            case NetworkError(_) => 'N'
            case SyncFailed(_) => 'S'
            case TaskNotFound => 'T'
  {
    match e
    case AuthorizationDenied => AuthorizationDeniedInitial();
    case NotConfigured => NotConfiguredInitial();
    case NetworkError(m) =>
      PrefixedInitial(NetworkErrorPrefix, m);
      assert NetworkErrorPrefix[0] == 'N';
    case SyncFailed(m) =>
      PrefixedInitial(SyncFailedPrefix, m);
      assert SyncFailedPrefix[0] == 'S';
    case TaskNotFound =>
      assert TaskNotFoundText[0] == 'T';
  }

  lemma AfterPrefix(prefix: string, a: string, b: string)
    requires prefix + a == prefix + b
    ensures a == b
  {
    assert a == (prefix + a)[|prefix|..];
    assert b == (prefix + b)[|prefix|..];
  }

  /** Different errors never share a description, so the error can be recovered from it. */
  lemma DescriptionInjective(e1: TaskProviderError, e2: TaskProviderError)
    requires ErrorDescription(e1) == ErrorDescription(e2)
    ensures e1 == e2
  {
    DescriptionInitial(e1);
    DescriptionInitial(e2);
    if e1.NetworkError? && e2.NetworkError? {
      AfterPrefix(NetworkErrorPrefix, e1.message, e2.message);
    } else if e1.SyncFailed? && e2.SyncFailed? {
      AfterPrefix(SyncFailedPrefix, e1.message, e2.message);
    }
  }
}
