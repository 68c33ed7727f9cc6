/** `GitHubStorage` (js/github-api.js:3-248): documents kept as JSON files in
    a remote repository. Each method does what the source does, one request
    at a time, and its postcondition ties the result and the repository's new
    state to the matching function of `RemoteSpec`, whose properties are
    proved in `RemoteProperties`. Console logging is left out. */
module GitHubApi {
  import opened Documents
  import opened Remote
  import RemoteSpec

  class GitHubStorage {
    const token: string
    /** `isConfigured = !token.includes('YOUR_')`, fixed at construction. */
    const isConfigured: bool := RemoteSpec.TokenUsable(token)
    /** The repository named by owner, repo and branch. */
    const repo: Repository

    constructor (token: string, repo: Repository)
      ensures this.token == token && this.repo == repo
      ensures isConfigured <==> RemoteSpec.TokenUsable(token)
    {
      this.token := token;
      this.repo := repo;
    }

    /** Ready exactly when the token is not the placeholder. */
    predicate IsReady()
      ensures IsReady() <==> RemoteSpec.TokenUsable(token)
    {
      isConfigured
    }

    method ReadFile(path: string) returns (r: Result<RemoteFile>)
      modifies repo
      ensures (r, repo.State()) == RemoteSpec.ReadFile(isConfigured, old(repo.State()), path)
    {
      if !IsReady() {
        return Err(NotConfigured);
      }
      r := repo.Get(path);
    }

    method WriteFile(path: string, content: Value) returns (r: Result<()>)
      modifies repo
      ensures (r, repo.State()) == RemoteSpec.WriteFile(isConfigured, old(repo.State()), path, content)
    {
      if !IsReady() {
        return Err(NotConfigured);
      }
      var sha: Option<Sha> := None;
      var existing := ReadFile(path);
      if existing.Ok? {
        sha := Some(existing.value.sha);
      }
      r := repo.Put(path, content, sha);
    }

    method Initialize(now: Timestamp) returns (ok: bool)
      modifies repo
      ensures (ok, repo.State()) == RemoteSpec.Initialize(isConfigured, old(repo.State()), now)
    {
      if !IsReady() {
        return false;
      }
      var read := ReadFile(RemoteSpec.ProgressPath);
      if read.Err? {
        var w := WriteFile(RemoteSpec.ProgressPath, Prog(EmptyProgress(now)));
        if w.Err? {
          return false;
        }
      }
      return true;
    }

    method UpdateProgress(k: string, status: string, now: Timestamp) returns (r: Result<Progress>)
      modifies repo
      ensures (r, repo.State()) == RemoteSpec.UpdateProgress(isConfigured, old(repo.State()), k, status, now)
    {
      var read := ReadFile(RemoteSpec.ProgressPath);
      if read.Err? {
        return Err(read.error);
      }
      if !read.value.content.Prog? {
        return Err(ShapeError);
      }
      var progress := read.value.content.progress;
      if status == Unlocked && k !in progress.daysUnlocked {
        progress := progress.(daysUnlocked := progress.daysUnlocked + [k]);
      }
      if status == Completed && k !in progress.daysCompleted {
        progress := progress.(daysCompleted := progress.daysCompleted + [k]);
      }
      progress := progress.(lastUpdated := now);
      var w := WriteFile(RemoteSpec.ProgressPath, Prog(progress));
      if w.Err? {
        return Err(w.error);
      }
      return Ok(progress);
    }

    method ReadDayData(k: string, now: Timestamp) returns (r: Result<Value>)
      modifies repo
      ensures (r, repo.State()) == RemoteSpec.ReadDayData(isConfigured, old(repo.State()), k, now)
    {
      var read := ReadFile(RemoteSpec.DayPath(k));
      if read.Ok? {
        return Ok(read.value.content);
      }
      if IsNotFound(read.error) {
        var newDayData := Day(NewDayDoc(k, now));
        var w := WriteDayData(k, newDayData);
        if w.Err? {
          return Err(w.error);
        }
        return Ok(newDayData);
      }
      return Err(read.error);
    }

    method WriteDayData(k: string, data: Value) returns (r: Result<()>)
      modifies repo
      ensures (r, repo.State()) == RemoteSpec.WriteDayData(isConfigured, old(repo.State()), k, data)
    {
      r := WriteFile(RemoteSpec.DayPath(k), data);
    }

    method AddMessage(k: string, text: string, id: int, now: Timestamp) returns (r: Result<Message>)
      modifies repo
      ensures (r, repo.State()) == RemoteSpec.AddMessage(isConfigured, old(repo.State()), k, text, id, now)
    {
      var read := ReadDayData(k, now);
      if read.Err? {
        return Err(read.error);
      }
      if !read.value.Day? {
        return Err(ShapeError);
      }
      var dayData := read.value.doc;
      var newMessage := Message(id, text, now);
      dayData := dayData.(messages := dayData.messages + [newMessage]);
      dayData := dayData.(lastUpdated := Some(now));
      var w := WriteDayData(k, Day(dayData));
      if w.Err? {
        return Err(w.error);
      }
      return Ok(newMessage);
    }

    method GetMessages(k: string, now: Timestamp) returns (messages: seq<Message>)
      modifies repo
      ensures (messages, repo.State()) == RemoteSpec.GetMessages(isConfigured, old(repo.State()), k, now)
    {
      var read := ReadDayData(k, now);
      if read.Ok? && read.value.Day? {
        return read.value.doc.messages;
      }
      return [];
    }

    method DeleteMessage(k: string, id: int, now: Timestamp) returns (r: Result<()>)
      modifies repo
      ensures (r, repo.State()) == RemoteSpec.DeleteMessage(isConfigured, old(repo.State()), k, id, now)
    {
      var read := ReadDayData(k, now);
      if read.Err? {
        return Err(read.error);
      }
      if !read.value.Day? {
        return Err(ShapeError);
      }
      var dayData := read.value.doc;
      dayData := dayData.(messages := WithoutId(dayData.messages, id));
      dayData := dayData.(lastUpdated := Some(now));
      r := WriteDayData(k, Day(dayData));
    }

    method CompleteDay(k: string, now: Timestamp) returns (r: Result<()>)
      modifies repo
      ensures (r, repo.State()) == RemoteSpec.CompleteDay(isConfigured, old(repo.State()), k, now)
    {
      var read := ReadDayData(k, now);
      if read.Err? {
        return Err(read.error);
      }
      if !read.value.Day? {
        return Err(ShapeError);
      }
      var dayData := read.value.doc;
      dayData := dayData.(completedAt := Some(now));
      var w := WriteDayData(k, Day(dayData));
      if w.Err? {
        return Err(w.error);
      }
      var u := UpdateProgress(k, Completed, now);
      if u.Err? {
        return Err(u.error);
      }
      return Ok(());
    }

    method GetProgress(now: Timestamp) returns (v: Value)
      modifies repo
      ensures (v, repo.State()) == RemoteSpec.GetProgress(isConfigured, old(repo.State()), now)
    {
      var read := ReadFile(RemoteSpec.ProgressPath);
      if read.Ok? {
        return read.value.content;
      }
      return Prog(EmptyProgress(now));
    }
  }
}
