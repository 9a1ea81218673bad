/** Request plans of notifications.go: none of them sends a body. */
module Notifications {
  import opened Wrappers
  import opened Json
  import opened Paths
  import opened Fizzy

  function GetNotifications(st: ClientState): (c: Call)
    ensures Plans(c, GET, Under(st.accountBaseURL, ["notifications"]), None, StatusOK, true)
  {
    Under1(st.accountBaseURL, "notifications");
    Call(NewRequest(st, GET, st.accountBaseURL + "/notifications", None), Decoding([], true))
  }

  function GetNotification(st: ClientState, notificationID: string): (c: Call)
    ensures Plans(c, GET, Under(st.accountBaseURL, ["notifications", notificationID]), None, StatusOK, true)
  {
    Under2(st.accountBaseURL, "notifications", notificationID);
    Call(NewRequest(st, GET, st.accountBaseURL + "/notifications/" + notificationID, None), Decoding([], true))
  }

  function MarkNotificationRead(st: ClientState, notificationID: string): (c: Call)
    ensures Plans(c, POST, Under(st.accountBaseURL, ["notifications", notificationID, "reading"]),
                  None, StatusNoContent, false)
  {
    Under3(st.accountBaseURL, "notifications", notificationID, "reading");
    Call(NewRequest(st, POST, st.accountBaseURL + "/notifications/" + notificationID + "/reading", None),
         Decoding([StatusNoContent], false))
  }

  function MarkNotificationUnread(st: ClientState, notificationID: string): (c: Call)
    ensures Plans(c, DELETE, Under(st.accountBaseURL, ["notifications", notificationID, "reading"]),
                  None, StatusNoContent, false)
  {
    Under3(st.accountBaseURL, "notifications", notificationID, "reading");
    Call(NewRequest(st, DELETE, st.accountBaseURL + "/notifications/" + notificationID + "/reading", None),
         Decoding([StatusNoContent], false))
  }

  function MarkAllNotificationsRead(st: ClientState): (c: Call)
    ensures Plans(c, POST, Under(st.accountBaseURL, ["notifications", "bulk_reading"]), None, StatusNoContent, false)
  {
    Under2(st.accountBaseURL, "notifications", "bulk_reading");
    Call(NewRequest(st, POST, st.accountBaseURL + "/notifications/bulk_reading", None), Decoding([StatusNoContent], false))
  }
}
