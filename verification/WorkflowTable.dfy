// prisma/seeds/iam.seed.ts: the default transition table every tenant starts from, step for step and in its order,
// and, of the permissions its steps ask for, those each seeded tenant role holds.
module WorkflowTable {

  // The kinds, states, verbs and rights of the default table; a tenant's own configuration may add to them.
  datatype Entity =
    Trip | Ticket | Parcel | Traveler | Bus | Shipment | MaintenanceReport | Claim | Refund | Manifest | Checklist
    | CrewAssignment | Driver | CashRegister | Incident | Voucher | CompensationItem | Invoice | Staff
    | StaffAssignment | SupportTicket | DriverTraining | QhseExecution | SafetyAlert | PublicReport | AccidentReport

  datatype State =
    ABORTED | ACTIVE | APPROVED | ARCHIVED | ARRIVED | ASSIGNED | AT_HUB_INBOUND | AT_HUB_OUTBOUND | AT_ORIGIN
    | AVAILABLE | AVAILABLE_FOR_PICKUP | BLOCKED | BOARDED | BOARDING | BRIEFING | CANCELLED | CANCELLED_IN_TRANSIT
    | CHECKED_IN | CLOSED | COMPLETED | CONFIRMED | CREATED | DAMAGED | DEBRIEFING | DECLINED | DELIVERED | DEPARTED
    | DISCREPANCY | DISPUTED | DOCS_CHECK | DRAFT | EXITED | EXPIRED | FORFEITED | IDLE | IN_PROGRESS
    | IN_PROGRESS_DELAYED | IN_PROGRESS_PAUSED | IN_TRANSIT | ISSUED | LATE_ARRIVED | LOADED | LOST | MAINTENANCE
    | MISSED | NO_SHOW | OFFERED | ON_DUTY | OPEN | PACKED | PAID | PENDING | PENDING_PAYMENT | PLANNED | PROCESSED
    | REBOOKED | REDEEMED | REFUNDED | REFUND_FAILED | REFUND_PENDING | REFUND_PROCESSING | REGISTERED | REJECTED
    | RESOLVED | REST | RESTING | REST_REQUIRED | RETURNED | RETURN_TO_SENDER | SAFETY_CHECK | SCHEDULED | SIGNED
    | STANDBY | STORED_AT_HUB | SUBMITTED | SUSPENDED | TECH_CHECK | UNDER_INVESTIGATION | VERIFIED
    | WAITING_CUSTOMER | OWN_STATE(name: string)

  datatype Action =
    ADD_TO_SHIPMENT | ARRIVE | ARRIVE_AT_HUB | BEGIN_BOARDING | BOARD | CANCEL | CANCEL_IN_TRANSIT | CHECK_IN
    | CLEAN | CLEAR_INCIDENT | CLOSE | COMPLETE_RETURN | DAMAGE | DECLARE_LOST | DECLARE_MAJOR_DELAY | DECLINE
    | DELIVER | DEPART | DEPART_FROM_HUB | DISPUTE | END_TRIP | EXIT | EXPIRE | FINALIZE | FORFEIT
    | INCIDENT_MECHANICAL | INITIATE_RETURN | LOAD | LOAD_OUTBOUND | MARK_LATE_ARRIVED | MISS_BOARDING
    | NOTIFY_FOR_PICKUP | OPEN_BOARDING | PAUSE | PAY | PICKUP | REBOOK_LATER | REBOOK_NEXT_AVAILABLE | RECEIVE
    | REDEEM | REFUND | REPORT_INCIDENT | REQUEST_REFUND | RESERVE | RESTORE | RESUME | RESUME_FROM_SUSPEND | RETURN
    | SCAN_BOARD | SCAN_IN | SCAN_OUT | START_BOARDING | STORE_AT_HUB | SUSPEND | VERIFY | abort | approve
    | approve_all | archive | assign | assign_briefing | auto_approve | await | cancel | close | complete
    | docs_missing | emergency_off | end_duty | end_shift | fail | fail_safety | fail_tech | fix_and_retry | flag
    | investigate | issue | mark_paid | miss | open | pass_safety | pass_tech | process | reactivate | reinstate
    | reject | reopen | resolve | rest_complete | resume | revise | sign | start | start_duty | start_rest
    | start_tech | start_work | submit | suspend | unassign | OwnAction(name: string)

  // A permission reads {plane}.{module}.{action}.{scope}; the first three parts make the right.
  datatype Right =
    control_driver_manage | control_invoice_manage | control_parcel_return_init | control_platform_support_write
    | control_qhse_manage | control_staff_manage | control_trip_cancel_in_transit | control_trip_declare_major_delay
    | control_trip_log_event | control_trip_suspend | control_voucher_cancel | data_cashier_close
    | data_cashier_open | data_compensation_issue | data_driver_rest | data_fleet_status | data_invoice_create
    | data_maintenance_approve | data_maintenance_update | data_manifest_generate | data_manifest_print
    | data_manifest_sign | data_parcel_dispute | data_parcel_hub_move | data_parcel_pickup | data_parcel_report
    | data_parcel_scan | data_parcel_update | data_refund_approve | data_refund_process | data_refund_request
    | data_sav_claim | data_sav_deliver | data_sav_report | data_shipment_group | data_ticket_cancel
    | data_ticket_create | data_ticket_noshow_mark | data_ticket_rebook | data_ticket_scan | data_traveler_verify
    | data_trip_report | data_trip_update | data_voucher_redeem
    | OtherRight(name: string)

  datatype Scope = Own | Agency | Tenant | Global

  datatype Permission = Perm(right: Right, scope: Scope)

  datatype Step = Step(from: State, action: Action, to: State, perm: Permission)

  /** What the unique key of a table row is made of, besides the tenant and the version. */
  datatype Key = Key(entity: Entity, from: State, action: Action)

  datatype Row = Row(key: Key, to: State, perm: Permission)

  function Of(e: Entity, steps: seq<Step>): seq<Row> {
    seq(|steps|, i requires 0 <= i < |steps| => Row(Key(e, steps[i].from, steps[i].action), steps[i].to, steps[i].perm))
  }

  // ----- The rows -----

  // lines 1008-1016
  const TRIP_START_BOARDING := Step(PLANNED, START_BOARDING, OPEN, Perm(data_trip_update, Agency))
  const TRIP_BEGIN_BOARDING := Step(OPEN, BEGIN_BOARDING, BOARDING, Perm(data_trip_update, Agency))
  const TRIP_DEPART := Step(BOARDING, DEPART, IN_PROGRESS, Perm(data_trip_update, Agency))
  const TRIP_PAUSE := Step(IN_PROGRESS, PAUSE, IN_PROGRESS_PAUSED, Perm(data_trip_report, Own))
  const TRIP_RESUME := Step(IN_PROGRESS_PAUSED, RESUME, IN_PROGRESS, Perm(data_trip_report, Own))
  const TRIP_REPORT_INCIDENT := Step(IN_PROGRESS, REPORT_INCIDENT, IN_PROGRESS_DELAYED, Perm(data_trip_report, Own))
  const TRIP_CLEAR_INCIDENT := Step(IN_PROGRESS_DELAYED, CLEAR_INCIDENT, IN_PROGRESS, Perm(data_trip_report, Own))
  const TRIP_END_TRIP := Step(IN_PROGRESS, END_TRIP, COMPLETED, Perm(data_trip_update, Agency))
  const TRIP_CANCEL := Step(PLANNED, CANCEL, CANCELLED, Perm(data_trip_update, Agency))

  // lines 1018-1030
  const TICKET_RESERVE := Step(CREATED, RESERVE, PENDING_PAYMENT, Perm(data_ticket_create, Agency))
  const TICKET_PAY := Step(PENDING_PAYMENT, PAY, CONFIRMED, Perm(data_ticket_create, Agency))
  const TICKET_EXPIRE := Step(PENDING_PAYMENT, EXPIRE, EXPIRED, Perm(data_ticket_create, Agency))
  const TICKET_CHECK_IN := Step(CONFIRMED, CHECK_IN, CHECKED_IN, Perm(data_ticket_scan, Agency))
  const TICKET_BOARD_FROM_CHECKED_IN := Step(CHECKED_IN, BOARD, BOARDED, Perm(data_ticket_scan, Agency))
  const TICKET_BOARD_FROM_CONFIRMED := Step(CONFIRMED, BOARD, BOARDED, Perm(data_ticket_scan, Agency))
  const TICKET_FINALIZE := Step(BOARDED, FINALIZE, COMPLETED, Perm(data_trip_update, Agency))
  const TICKET_CANCEL_FROM_CONFIRMED := Step(CONFIRMED, CANCEL, CANCELLED, Perm(data_ticket_cancel, Agency))
  const TICKET_CANCEL_FROM_PENDING_PAYMENT := Step(PENDING_PAYMENT, CANCEL, CANCELLED, Perm(data_ticket_cancel, Agency))
  const TICKET_REFUND := Step(CONFIRMED, REFUND, REFUND_PENDING, Perm(data_ticket_cancel, Agency))
  const TICKET_APPROVE := Step(REFUND_PENDING, approve, REFUND_PROCESSING, Perm(data_refund_approve, Tenant))
  const TICKET_PROCESS := Step(REFUND_PROCESSING, process, REFUNDED, Perm(data_refund_process, Tenant))
  const TICKET_FAIL := Step(REFUND_PROCESSING, fail, REFUND_FAILED, Perm(data_refund_process, Tenant))

  // lines 1032-1040
  const PARCEL_RECEIVE := Step(CREATED, RECEIVE, AT_ORIGIN, Perm(data_parcel_scan, Agency))
  const PARCEL_ADD_TO_SHIPMENT := Step(AT_ORIGIN, ADD_TO_SHIPMENT, PACKED, Perm(data_shipment_group, Agency))
  const PARCEL_LOAD := Step(PACKED, LOAD, LOADED, Perm(data_parcel_update, Agency))
  const PARCEL_DEPART := Step(LOADED, DEPART, IN_TRANSIT, Perm(data_parcel_update, Agency))
  const PARCEL_ARRIVE := Step(IN_TRANSIT, ARRIVE, ARRIVED, Perm(data_parcel_scan, Agency))
  const PARCEL_DELIVER := Step(ARRIVED, DELIVER, DELIVERED, Perm(data_parcel_update, Agency))
  const PARCEL_DAMAGE := Step(IN_TRANSIT, DAMAGE, DAMAGED, Perm(data_parcel_report, Agency))
  const PARCEL_DECLARE_LOST := Step(IN_TRANSIT, DECLARE_LOST, LOST, Perm(data_parcel_report, Agency))
  const PARCEL_RETURN := Step(ARRIVED, RETURN, RETURNED, Perm(data_parcel_update, Tenant))

  // lines 1042-1046
  const TRAVELER_VERIFY := Step(REGISTERED, VERIFY, VERIFIED, Perm(data_traveler_verify, Agency))
  const TRAVELER_SCAN_IN := Step(VERIFIED, SCAN_IN, CHECKED_IN, Perm(data_ticket_scan, Agency))
  const TRAVELER_SCAN_BOARD := Step(CHECKED_IN, SCAN_BOARD, BOARDED, Perm(data_traveler_verify, Agency))
  const TRAVELER_SCAN_OUT := Step(BOARDED, SCAN_OUT, ARRIVED, Perm(data_traveler_verify, Agency))
  const TRAVELER_EXIT := Step(ARRIVED, EXIT, EXITED, Perm(data_traveler_verify, Agency))

  // lines 1048-1057
  const BUS_OPEN_BOARDING_FROM_AVAILABLE := Step(AVAILABLE, OPEN_BOARDING, BOARDING, Perm(data_trip_update, Agency))
  const BUS_OPEN_BOARDING_FROM_IDLE := Step(IDLE, OPEN_BOARDING, BOARDING, Perm(data_trip_update, Agency))
  const BUS_DEPART := Step(BOARDING, DEPART, DEPARTED, Perm(data_trip_update, Agency))
  const BUS_ARRIVE := Step(DEPARTED, ARRIVE, ARRIVED, Perm(data_trip_update, Agency))
  const BUS_CLEAN := Step(ARRIVED, CLEAN, CLOSED, Perm(data_trip_update, Agency))
  const BUS_RESTORE_FROM_CLOSED := Step(CLOSED, RESTORE, AVAILABLE, Perm(data_fleet_status, Agency))
  const BUS_INCIDENT_MECHANICAL_FROM_AVAILABLE :=
    Step(AVAILABLE, INCIDENT_MECHANICAL, MAINTENANCE, Perm(data_maintenance_update, Own))
  const BUS_INCIDENT_MECHANICAL_FROM_BOARDING :=
    Step(BOARDING, INCIDENT_MECHANICAL, MAINTENANCE, Perm(data_maintenance_update, Own))
  const BUS_INCIDENT_MECHANICAL_FROM_DEPARTED :=
    Step(DEPARTED, INCIDENT_MECHANICAL, MAINTENANCE, Perm(data_maintenance_update, Own))
  const BUS_RESTORE_FROM_MAINTENANCE := Step(MAINTENANCE, RESTORE, AVAILABLE, Perm(data_maintenance_approve, Tenant))

  // lines 1059-1062
  const SHIPMENT_LOAD := Step(OPEN, LOAD, LOADED, Perm(data_shipment_group, Agency))
  const SHIPMENT_DEPART := Step(LOADED, DEPART, IN_TRANSIT, Perm(data_trip_update, Agency))
  const SHIPMENT_ARRIVE := Step(IN_TRANSIT, ARRIVE, ARRIVED, Perm(data_trip_update, Agency))
  const SHIPMENT_CLOSE := Step(ARRIVED, CLOSE, CLOSED, Perm(data_shipment_group, Agency))

  // lines 1074-1077
  const MAINTENANCE_START_WORK := Step(SCHEDULED, start_work, IN_PROGRESS, Perm(data_maintenance_update, Own))
  const MAINTENANCE_COMPLETE := Step(IN_PROGRESS, complete, COMPLETED, Perm(data_maintenance_update, Own))
  const MAINTENANCE_APPROVE := Step(COMPLETED, approve, APPROVED, Perm(data_maintenance_approve, Tenant))
  const MAINTENANCE_REOPEN := Step(COMPLETED, reopen, IN_PROGRESS, Perm(data_maintenance_approve, Tenant))

  // lines 1081-1089
  const CLAIM_ASSIGN := Step(OPEN, assign, ASSIGNED, Perm(data_sav_report, Agency))
  const CLAIM_INVESTIGATE := Step(ASSIGNED, investigate, UNDER_INVESTIGATION, Perm(data_sav_deliver, Agency))
  const CLAIM_RESOLVE_FROM_UNDER_INVESTIGATION :=
    Step(UNDER_INVESTIGATION, resolve, RESOLVED, Perm(data_sav_claim, Tenant))
  const CLAIM_REJECT_FROM_UNDER_INVESTIGATION :=
    Step(UNDER_INVESTIGATION, reject, REJECTED, Perm(data_sav_claim, Tenant))
  const CLAIM_RESOLVE_FROM_OPEN := Step(OPEN, resolve, RESOLVED, Perm(data_sav_claim, Tenant))
  const CLAIM_REJECT_FROM_OPEN := Step(OPEN, reject, REJECTED, Perm(data_sav_claim, Tenant))
  const CLAIM_RESOLVE_FROM_ASSIGNED := Step(ASSIGNED, resolve, RESOLVED, Perm(data_sav_claim, Tenant))
  const CLAIM_REJECT_FROM_ASSIGNED := Step(ASSIGNED, reject, REJECTED, Perm(data_sav_claim, Tenant))
  const CLAIM_CLOSE := Step(RESOLVED, close, CLOSED, Perm(data_sav_claim, Tenant))

  // lines 1093-1100
  const REFUND_APPROVE_TENANT := Step(PENDING, approve, APPROVED, Perm(data_refund_approve, Tenant))
  const REFUND_APPROVE_AGENCY := Step(PENDING, approve, APPROVED, Perm(data_refund_approve, Agency))
  const REFUND_AUTO_APPROVE := Step(PENDING, auto_approve, APPROVED, Perm(data_refund_approve, Tenant))
  const REFUND_REJECT_FROM_PENDING := Step(PENDING, reject, REJECTED, Perm(data_refund_approve, Tenant))
  const REFUND_PROCESS := Step(APPROVED, process, PROCESSED, Perm(data_refund_process, Tenant))
  const REFUND_REJECT_FROM_APPROVED := Step(APPROVED, reject, REJECTED, Perm(data_refund_approve, Tenant))

  // lines 1103-1107
  const MANIFEST_SUBMIT := Step(DRAFT, submit, SUBMITTED, Perm(data_manifest_generate, Agency))
  const MANIFEST_SIGN := Step(SUBMITTED, sign, SIGNED, Perm(data_manifest_sign, Agency))
  const MANIFEST_REJECT := Step(SUBMITTED, reject, REJECTED, Perm(data_manifest_sign, Agency))
  const MANIFEST_ARCHIVE := Step(SIGNED, archive, ARCHIVED, Perm(data_manifest_print, Agency))
  const MANIFEST_REVISE := Step(REJECTED, revise, DRAFT, Perm(data_manifest_generate, Agency))

  // lines 1110-1119
  const CHECKLIST_START_TECH := Step(PENDING, start_tech, TECH_CHECK, Perm(data_maintenance_update, Own))
  const CHECKLIST_PASS_TECH := Step(TECH_CHECK, pass_tech, SAFETY_CHECK, Perm(data_maintenance_update, Own))
  const CHECKLIST_FAIL_TECH := Step(TECH_CHECK, fail_tech, BLOCKED, Perm(data_maintenance_update, Own))
  const CHECKLIST_PASS_SAFETY := Step(SAFETY_CHECK, pass_safety, DOCS_CHECK, Perm(data_trip_update, Agency))
  const CHECKLIST_FAIL_SAFETY := Step(SAFETY_CHECK, fail_safety, BLOCKED, Perm(data_trip_update, Agency))
  const CHECKLIST_APPROVE_ALL := Step(DOCS_CHECK, approve_all, APPROVED, Perm(data_manifest_sign, Agency))
  const CHECKLIST_DOCS_MISSING := Step(DOCS_CHECK, docs_missing, BLOCKED, Perm(data_manifest_sign, Agency))
  const CHECKLIST_FIX_AND_RETRY := Step(BLOCKED, fix_and_retry, PENDING, Perm(data_maintenance_approve, Tenant))
  const CHECKLIST_COMPLETE := Step(PENDING, complete, APPROVED, Perm(data_maintenance_update, Own))

  // lines 1122-1129
  const CREW_ASSIGN_BRIEFING := Step(STANDBY, assign_briefing, BRIEFING, Perm(control_driver_manage, Tenant))
  const CREW_START_DUTY := Step(BRIEFING, start_duty, ON_DUTY, Perm(data_trip_update, Agency))
  const CREW_CANCEL := Step(BRIEFING, cancel, STANDBY, Perm(control_driver_manage, Tenant))
  const CREW_END_DUTY := Step(ON_DUTY, end_duty, DEBRIEFING, Perm(control_trip_log_event, Own))
  const CREW_EMERGENCY_OFF := Step(ON_DUTY, emergency_off, SUSPENDED, Perm(control_driver_manage, Tenant))
  const CREW_START_REST := Step(DEBRIEFING, start_rest, REST, Perm(data_driver_rest, Own))
  const CREW_REST_COMPLETE := Step(REST, rest_complete, STANDBY, Perm(data_driver_rest, Own))
  const CREW_REINSTATE := Step(SUSPENDED, reinstate, STANDBY, Perm(control_driver_manage, Tenant))

  // lines 1132-1139
  const DRIVER_ASSIGN := Step(AVAILABLE, assign, ASSIGNED, Perm(control_driver_manage, Tenant))
  const DRIVER_START_DUTY := Step(ASSIGNED, start_duty, ON_DUTY, Perm(data_trip_update, Agency))
  const DRIVER_UNASSIGN := Step(ASSIGNED, unassign, AVAILABLE, Perm(control_driver_manage, Tenant))
  const DRIVER_END_SHIFT := Step(ON_DUTY, end_shift, REST_REQUIRED, Perm(control_trip_log_event, Own))
  const DRIVER_EMERGENCY_OFF := Step(ON_DUTY, emergency_off, SUSPENDED, Perm(control_driver_manage, Tenant))
  const DRIVER_START_REST := Step(REST_REQUIRED, start_rest, RESTING, Perm(data_driver_rest, Own))
  const DRIVER_REST_COMPLETE := Step(RESTING, rest_complete, AVAILABLE, Perm(data_driver_rest, Own))
  const DRIVER_REINSTATE := Step(SUSPENDED, reinstate, AVAILABLE, Perm(control_driver_manage, Tenant))

  // lines 1142-1145
  const REGISTER_OPEN := Step(CLOSED, open, OPEN, Perm(data_cashier_open, Own))
  const REGISTER_CLOSE := Step(OPEN, close, CLOSED, Perm(data_cashier_close, Agency))
  const REGISTER_FLAG := Step(OPEN, flag, DISCREPANCY, Perm(data_cashier_close, Agency))
  const REGISTER_RESOLVE := Step(DISCREPANCY, resolve, CLOSED, Perm(data_cashier_close, Agency))

  // lines 1148-1154
  const INCIDENT_ASSIGN := Step(OPEN, assign, ASSIGNED, Perm(data_trip_update, Agency))
  const INCIDENT_START_WORK := Step(ASSIGNED, start_work, IN_PROGRESS, Perm(data_trip_report, Own))
  const INCIDENT_RESOLVE_FROM_IN_PROGRESS := Step(IN_PROGRESS, resolve, RESOLVED, Perm(data_trip_report, Own))
  const INCIDENT_RESOLVE_FROM_ASSIGNED := Step(ASSIGNED, resolve, RESOLVED, Perm(data_trip_report, Own))
  const INCIDENT_RESOLVE_FROM_OPEN := Step(OPEN, resolve, RESOLVED, Perm(data_trip_report, Own))
  const INCIDENT_CLOSE := Step(RESOLVED, close, CLOSED, Perm(data_trip_update, Agency))
  const INCIDENT_REOPEN := Step(RESOLVED, reopen, IN_PROGRESS, Perm(data_trip_update, Agency))

  // lines 1158-1166
  const TRIP_SUSPEND_FROM_IN_PROGRESS := Step(IN_PROGRESS, SUSPEND, SUSPENDED, Perm(control_trip_suspend, Agency))
  const TRIP_SUSPEND_FROM_IN_PROGRESS_DELAYED :=
    Step(IN_PROGRESS_DELAYED, SUSPEND, SUSPENDED, Perm(control_trip_suspend, Agency))
  const TRIP_RESUME_FROM_SUSPEND :=
    Step(SUSPENDED, RESUME_FROM_SUSPEND, IN_PROGRESS, Perm(control_trip_suspend, Agency))
  const TRIP_CANCEL_IN_TRANSIT_FROM_IN_PROGRESS :=
    Step(IN_PROGRESS, CANCEL_IN_TRANSIT, CANCELLED_IN_TRANSIT, Perm(control_trip_cancel_in_transit, Tenant))
  const TRIP_CANCEL_IN_TRANSIT_FROM_IN_PROGRESS_DELAYED :=
    Step(IN_PROGRESS_DELAYED, CANCEL_IN_TRANSIT, CANCELLED_IN_TRANSIT, Perm(control_trip_cancel_in_transit, Tenant))
  const TRIP_CANCEL_IN_TRANSIT_FROM_SUSPENDED :=
    Step(SUSPENDED, CANCEL_IN_TRANSIT, CANCELLED_IN_TRANSIT, Perm(control_trip_cancel_in_transit, Tenant))
  const TRIP_DECLARE_MAJOR_DELAY_FROM_IN_PROGRESS :=
    Step(IN_PROGRESS, DECLARE_MAJOR_DELAY, IN_PROGRESS_DELAYED, Perm(control_trip_declare_major_delay, Agency))
  const TRIP_DECLARE_MAJOR_DELAY_FROM_IN_PROGRESS_DELAYED :=
    Step(IN_PROGRESS_DELAYED, DECLARE_MAJOR_DELAY, IN_PROGRESS_DELAYED, Perm(control_trip_declare_major_delay, Agency))
  const TRIP_DECLARE_MAJOR_DELAY_FROM_SUSPENDED :=
    Step(SUSPENDED, DECLARE_MAJOR_DELAY, SUSPENDED, Perm(control_trip_declare_major_delay, Agency))

  // lines 1169-1188
  const TICKET_MISS_BOARDING_FROM_CONFIRMED :=
    Step(CONFIRMED, MISS_BOARDING, NO_SHOW, Perm(data_ticket_noshow_mark, Agency))
  const TICKET_MISS_BOARDING_FROM_CHECKED_IN :=
    Step(CHECKED_IN, MISS_BOARDING, NO_SHOW, Perm(data_ticket_noshow_mark, Agency))
  const TICKET_MARK_LATE_ARRIVED :=
    Step(NO_SHOW, MARK_LATE_ARRIVED, LATE_ARRIVED, Perm(data_ticket_noshow_mark, Agency))
  const TICKET_REBOOK_NEXT_AVAILABLE_FROM_NO_SHOW_AGENCY :=
    Step(NO_SHOW, REBOOK_NEXT_AVAILABLE, REBOOKED, Perm(data_ticket_rebook, Agency))
  const TICKET_REBOOK_NEXT_AVAILABLE_FROM_LATE_ARRIVED :=
    Step(LATE_ARRIVED, REBOOK_NEXT_AVAILABLE, REBOOKED, Perm(data_ticket_rebook, Agency))
  const TICKET_REBOOK_NEXT_AVAILABLE_FROM_CONFIRMED_AGENCY :=
    Step(CONFIRMED, REBOOK_NEXT_AVAILABLE, REBOOKED, Perm(data_ticket_rebook, Agency))
  const TICKET_REBOOK_LATER_FROM_NO_SHOW := Step(NO_SHOW, REBOOK_LATER, REBOOKED, Perm(data_ticket_rebook, Agency))
  const TICKET_REBOOK_LATER_FROM_LATE_ARRIVED :=
    Step(LATE_ARRIVED, REBOOK_LATER, REBOOKED, Perm(data_ticket_rebook, Agency))
  const TICKET_REBOOK_LATER_FROM_CONFIRMED_AGENCY :=
    Step(CONFIRMED, REBOOK_LATER, REBOOKED, Perm(data_ticket_rebook, Agency))
  const TICKET_REBOOK_NEXT_AVAILABLE_FROM_CONFIRMED_OWN :=
    Step(CONFIRMED, REBOOK_NEXT_AVAILABLE, REBOOKED, Perm(data_ticket_rebook, Own))
  const TICKET_REBOOK_LATER_FROM_CONFIRMED_OWN := Step(CONFIRMED, REBOOK_LATER, REBOOKED, Perm(data_ticket_rebook, Own))
  const TICKET_REBOOK_NEXT_AVAILABLE_FROM_NO_SHOW_OWN :=
    Step(NO_SHOW, REBOOK_NEXT_AVAILABLE, REBOOKED, Perm(data_ticket_rebook, Own))
  const TICKET_REQUEST_REFUND_FROM_NO_SHOW_OWN :=
    Step(NO_SHOW, REQUEST_REFUND, REFUND_PENDING, Perm(data_refund_request, Own))
  const TICKET_REQUEST_REFUND_FROM_LATE_ARRIVED :=
    Step(LATE_ARRIVED, REQUEST_REFUND, REFUND_PENDING, Perm(data_refund_request, Own))
  const TICKET_REQUEST_REFUND_FROM_NO_SHOW_AGENCY :=
    Step(NO_SHOW, REQUEST_REFUND, REFUND_PENDING, Perm(data_ticket_cancel, Agency))
  const TICKET_FORFEIT_FROM_NO_SHOW := Step(NO_SHOW, FORFEIT, FORFEITED, Perm(data_ticket_noshow_mark, Agency))
  const TICKET_FORFEIT_FROM_LATE_ARRIVED :=
    Step(LATE_ARRIVED, FORFEIT, FORFEITED, Perm(data_ticket_noshow_mark, Agency))

  // lines 1191-1205
  const PARCEL_ARRIVE_AT_HUB := Step(IN_TRANSIT, ARRIVE_AT_HUB, AT_HUB_INBOUND, Perm(data_parcel_hub_move, Agency))
  const PARCEL_STORE_AT_HUB := Step(AT_HUB_INBOUND, STORE_AT_HUB, STORED_AT_HUB, Perm(data_parcel_hub_move, Agency))
  const PARCEL_LOAD_OUTBOUND_FROM_AT_HUB_INBOUND :=
    Step(AT_HUB_INBOUND, LOAD_OUTBOUND, AT_HUB_OUTBOUND, Perm(data_parcel_hub_move, Agency))
  const PARCEL_LOAD_OUTBOUND_FROM_STORED_AT_HUB :=
    Step(STORED_AT_HUB, LOAD_OUTBOUND, AT_HUB_OUTBOUND, Perm(data_parcel_hub_move, Agency))
  const PARCEL_DEPART_FROM_HUB := Step(AT_HUB_OUTBOUND, DEPART_FROM_HUB, IN_TRANSIT, Perm(data_parcel_hub_move, Agency))
  const PARCEL_NOTIFY_FOR_PICKUP :=
    Step(ARRIVED, NOTIFY_FOR_PICKUP, AVAILABLE_FOR_PICKUP, Perm(data_parcel_update, Agency))
  const PARCEL_PICKUP := Step(AVAILABLE_FOR_PICKUP, PICKUP, DELIVERED, Perm(data_parcel_pickup, Agency))
  const PARCEL_DISPUTE_FROM_DELIVERED := Step(DELIVERED, DISPUTE, DISPUTED, Perm(data_parcel_dispute, Own))
  const PARCEL_DISPUTE_FROM_AVAILABLE_FOR_PICKUP :=
    Step(AVAILABLE_FOR_PICKUP, DISPUTE, DISPUTED, Perm(data_parcel_dispute, Own))
  const PARCEL_INITIATE_RETURN_FROM_AVAILABLE_FOR_PICKUP :=
    Step(AVAILABLE_FOR_PICKUP, INITIATE_RETURN, RETURN_TO_SENDER, Perm(control_parcel_return_init, Tenant))
  const PARCEL_INITIATE_RETURN_FROM_STORED_AT_HUB :=
    Step(STORED_AT_HUB, INITIATE_RETURN, RETURN_TO_SENDER, Perm(control_parcel_return_init, Tenant))
  const PARCEL_COMPLETE_RETURN := Step(RETURN_TO_SENDER, COMPLETE_RETURN, RETURNED, Perm(data_parcel_update, Agency))

  // lines 1210-1213
  const VOUCHER_REDEEM := Step(ISSUED, REDEEM, REDEEMED, Perm(data_voucher_redeem, Agency))
  const VOUCHER_RESTORE := Step(REDEEMED, RESTORE, ISSUED, Perm(data_voucher_redeem, Agency))
  const VOUCHER_EXPIRE := Step(ISSUED, EXPIRE, EXPIRED, Perm(data_voucher_redeem, Agency))
  const VOUCHER_CANCEL := Step(ISSUED, CANCEL, CANCELLED, Perm(control_voucher_cancel, Tenant))

  // lines 1216-1217
  const COMPENSATION_DELIVER := Step(OFFERED, DELIVER, DELIVERED, Perm(data_compensation_issue, Agency))
  const COMPENSATION_DECLINE := Step(OFFERED, DECLINE, DECLINED, Perm(data_compensation_issue, Agency))

  // lines 1224-1228
  const INVOICE_ISSUE := Step(DRAFT, issue, ISSUED, Perm(data_invoice_create, Agency))
  const INVOICE_MARK_PAID_FROM_ISSUED := Step(ISSUED, mark_paid, PAID, Perm(data_invoice_create, Agency))
  const INVOICE_MARK_PAID_FROM_DRAFT := Step(DRAFT, mark_paid, PAID, Perm(data_invoice_create, Agency))
  const INVOICE_CANCEL_FROM_DRAFT := Step(DRAFT, cancel, CANCELLED, Perm(control_invoice_manage, Tenant))
  const INVOICE_CANCEL_FROM_ISSUED := Step(ISSUED, cancel, CANCELLED, Perm(control_invoice_manage, Tenant))

  // lines 1231-1234
  const STAFF_SUSPEND := Step(ACTIVE, suspend, SUSPENDED, Perm(control_staff_manage, Tenant))
  const STAFF_REACTIVATE := Step(SUSPENDED, reactivate, ACTIVE, Perm(control_staff_manage, Tenant))
  const STAFF_ARCHIVE_FROM_ACTIVE := Step(ACTIVE, archive, ARCHIVED, Perm(control_staff_manage, Tenant))
  const STAFF_ARCHIVE_FROM_SUSPENDED := Step(SUSPENDED, archive, ARCHIVED, Perm(control_staff_manage, Tenant))

  // lines 1237-1240
  const ASSIGNMENT_SUSPEND := Step(ACTIVE, suspend, SUSPENDED, Perm(control_staff_manage, Tenant))
  const ASSIGNMENT_REACTIVATE := Step(SUSPENDED, reactivate, ACTIVE, Perm(control_staff_manage, Tenant))
  const ASSIGNMENT_CLOSE_FROM_ACTIVE := Step(ACTIVE, close, CLOSED, Perm(control_staff_manage, Tenant))
  const ASSIGNMENT_CLOSE_FROM_SUSPENDED := Step(SUSPENDED, close, CLOSED, Perm(control_staff_manage, Tenant))

  // lines 1243-1250
  const SUPPORT_START := Step(OPEN, start, IN_PROGRESS, Perm(control_platform_support_write, Global))
  const SUPPORT_AWAIT := Step(IN_PROGRESS, await, WAITING_CUSTOMER, Perm(control_platform_support_write, Global))
  const SUPPORT_RESUME := Step(WAITING_CUSTOMER, resume, IN_PROGRESS, Perm(control_platform_support_write, Global))
  const SUPPORT_RESOLVE_FROM_IN_PROGRESS :=
    Step(IN_PROGRESS, resolve, RESOLVED, Perm(control_platform_support_write, Global))
  const SUPPORT_RESOLVE_FROM_WAITING_CUSTOMER :=
    Step(WAITING_CUSTOMER, resolve, RESOLVED, Perm(control_platform_support_write, Global))
  const SUPPORT_RESOLVE_FROM_OPEN := Step(OPEN, resolve, RESOLVED, Perm(control_platform_support_write, Global))
  const SUPPORT_CLOSE := Step(RESOLVED, close, CLOSED, Perm(control_platform_support_write, Global))
  const SUPPORT_REOPEN := Step(RESOLVED, reopen, IN_PROGRESS, Perm(control_platform_support_write, Global))

  // lines 1253-1257
  const TRAINING_START := Step(PLANNED, start, IN_PROGRESS, Perm(control_driver_manage, Tenant))
  const TRAINING_COMPLETE_FROM_IN_PROGRESS :=
    Step(IN_PROGRESS, complete, COMPLETED, Perm(control_driver_manage, Tenant))
  const TRAINING_COMPLETE_FROM_PLANNED := Step(PLANNED, complete, COMPLETED, Perm(control_driver_manage, Tenant))
  const TRAINING_MISS := Step(PLANNED, miss, MISSED, Perm(control_driver_manage, Tenant))
  const TRAINING_CANCEL := Step(PLANNED, cancel, CANCELLED, Perm(control_driver_manage, Tenant))

  // lines 1260-1261
  const QHSE_COMPLETE := Step(IN_PROGRESS, complete, COMPLETED, Perm(control_qhse_manage, Tenant))
  const QHSE_ABORT := Step(IN_PROGRESS, abort, ABORTED, Perm(control_qhse_manage, Tenant))

  // ----- The table -----

  const TRIP_STEPS: seq<Step> := [
    TRIP_START_BOARDING, TRIP_BEGIN_BOARDING, TRIP_DEPART, TRIP_PAUSE, TRIP_RESUME, TRIP_REPORT_INCIDENT,
    TRIP_CLEAR_INCIDENT, TRIP_END_TRIP, TRIP_CANCEL
  ]
  const TICKET_STEPS: seq<Step> := [
    TICKET_RESERVE, TICKET_PAY, TICKET_EXPIRE, TICKET_CHECK_IN, TICKET_BOARD_FROM_CHECKED_IN,
    TICKET_BOARD_FROM_CONFIRMED, TICKET_FINALIZE, TICKET_CANCEL_FROM_CONFIRMED, TICKET_CANCEL_FROM_PENDING_PAYMENT,
    TICKET_REFUND, TICKET_APPROVE, TICKET_PROCESS, TICKET_FAIL
  ]
  const PARCEL_STEPS: seq<Step> := [
    PARCEL_RECEIVE, PARCEL_ADD_TO_SHIPMENT, PARCEL_LOAD, PARCEL_DEPART, PARCEL_ARRIVE, PARCEL_DELIVER, PARCEL_DAMAGE,
    PARCEL_DECLARE_LOST, PARCEL_RETURN
  ]
  const TRAVELER_STEPS: seq<Step> := [
    TRAVELER_VERIFY, TRAVELER_SCAN_IN, TRAVELER_SCAN_BOARD, TRAVELER_SCAN_OUT, TRAVELER_EXIT
  ]
  const BUS_STEPS: seq<Step> := [
    BUS_OPEN_BOARDING_FROM_AVAILABLE, BUS_OPEN_BOARDING_FROM_IDLE, BUS_DEPART, BUS_ARRIVE, BUS_CLEAN,
    BUS_RESTORE_FROM_CLOSED, BUS_INCIDENT_MECHANICAL_FROM_AVAILABLE, BUS_INCIDENT_MECHANICAL_FROM_BOARDING,
    BUS_INCIDENT_MECHANICAL_FROM_DEPARTED, BUS_RESTORE_FROM_MAINTENANCE
  ]
  const SHIPMENT_STEPS: seq<Step> := [SHIPMENT_LOAD, SHIPMENT_DEPART, SHIPMENT_ARRIVE, SHIPMENT_CLOSE]
  const MAINTENANCE_REPORT_STEPS: seq<Step> := [
    MAINTENANCE_START_WORK, MAINTENANCE_COMPLETE, MAINTENANCE_APPROVE, MAINTENANCE_REOPEN
  ]
  const CLAIM_STEPS: seq<Step> := [
    CLAIM_ASSIGN, CLAIM_INVESTIGATE, CLAIM_RESOLVE_FROM_UNDER_INVESTIGATION, CLAIM_REJECT_FROM_UNDER_INVESTIGATION,
    CLAIM_RESOLVE_FROM_OPEN, CLAIM_REJECT_FROM_OPEN, CLAIM_RESOLVE_FROM_ASSIGNED, CLAIM_REJECT_FROM_ASSIGNED,
    CLAIM_CLOSE
  ]
  const REFUND_STEPS: seq<Step> := [
    REFUND_APPROVE_TENANT, REFUND_APPROVE_AGENCY, REFUND_AUTO_APPROVE, REFUND_REJECT_FROM_PENDING, REFUND_PROCESS,
    REFUND_REJECT_FROM_APPROVED
  ]
  const MANIFEST_STEPS: seq<Step> := [
    MANIFEST_SUBMIT, MANIFEST_SIGN, MANIFEST_REJECT, MANIFEST_ARCHIVE, MANIFEST_REVISE
  ]
  const CHECKLIST_STEPS: seq<Step> := [
    CHECKLIST_START_TECH, CHECKLIST_PASS_TECH, CHECKLIST_FAIL_TECH, CHECKLIST_PASS_SAFETY, CHECKLIST_FAIL_SAFETY,
    CHECKLIST_APPROVE_ALL, CHECKLIST_DOCS_MISSING, CHECKLIST_FIX_AND_RETRY, CHECKLIST_COMPLETE
  ]
  const CREW_ASSIGNMENT_STEPS: seq<Step> := [
    CREW_ASSIGN_BRIEFING, CREW_START_DUTY, CREW_CANCEL, CREW_END_DUTY, CREW_EMERGENCY_OFF, CREW_START_REST,
    CREW_REST_COMPLETE, CREW_REINSTATE
  ]
  const DRIVER_STEPS: seq<Step> := [
    DRIVER_ASSIGN, DRIVER_START_DUTY, DRIVER_UNASSIGN, DRIVER_END_SHIFT, DRIVER_EMERGENCY_OFF, DRIVER_START_REST,
    DRIVER_REST_COMPLETE, DRIVER_REINSTATE
  ]
  const CASH_REGISTER_STEPS: seq<Step> := [REGISTER_OPEN, REGISTER_CLOSE, REGISTER_FLAG, REGISTER_RESOLVE]
  const INCIDENT_STEPS: seq<Step> := [
    INCIDENT_ASSIGN, INCIDENT_START_WORK, INCIDENT_RESOLVE_FROM_IN_PROGRESS, INCIDENT_RESOLVE_FROM_ASSIGNED,
    INCIDENT_RESOLVE_FROM_OPEN, INCIDENT_CLOSE, INCIDENT_REOPEN
  ]
  const TRIP_INCIDENTS_STEPS: seq<Step> := [
    TRIP_SUSPEND_FROM_IN_PROGRESS, TRIP_SUSPEND_FROM_IN_PROGRESS_DELAYED, TRIP_RESUME_FROM_SUSPEND,
    TRIP_CANCEL_IN_TRANSIT_FROM_IN_PROGRESS, TRIP_CANCEL_IN_TRANSIT_FROM_IN_PROGRESS_DELAYED,
    TRIP_CANCEL_IN_TRANSIT_FROM_SUSPENDED, TRIP_DECLARE_MAJOR_DELAY_FROM_IN_PROGRESS,
    TRIP_DECLARE_MAJOR_DELAY_FROM_IN_PROGRESS_DELAYED, TRIP_DECLARE_MAJOR_DELAY_FROM_SUSPENDED
  ]
  const TICKET_NO_SHOW_STEPS: seq<Step> := [
    TICKET_MISS_BOARDING_FROM_CONFIRMED, TICKET_MISS_BOARDING_FROM_CHECKED_IN, TICKET_MARK_LATE_ARRIVED,
    TICKET_REBOOK_NEXT_AVAILABLE_FROM_NO_SHOW_AGENCY, TICKET_REBOOK_NEXT_AVAILABLE_FROM_LATE_ARRIVED,
    TICKET_REBOOK_NEXT_AVAILABLE_FROM_CONFIRMED_AGENCY, TICKET_REBOOK_LATER_FROM_NO_SHOW,
    TICKET_REBOOK_LATER_FROM_LATE_ARRIVED, TICKET_REBOOK_LATER_FROM_CONFIRMED_AGENCY,
    TICKET_REBOOK_NEXT_AVAILABLE_FROM_CONFIRMED_OWN, TICKET_REBOOK_LATER_FROM_CONFIRMED_OWN,
    TICKET_REBOOK_NEXT_AVAILABLE_FROM_NO_SHOW_OWN, TICKET_REQUEST_REFUND_FROM_NO_SHOW_OWN,
    TICKET_REQUEST_REFUND_FROM_LATE_ARRIVED, TICKET_REQUEST_REFUND_FROM_NO_SHOW_AGENCY, TICKET_FORFEIT_FROM_NO_SHOW,
    TICKET_FORFEIT_FROM_LATE_ARRIVED
  ]
  const PARCEL_HUBS_STEPS: seq<Step> := [
    PARCEL_ARRIVE_AT_HUB, PARCEL_STORE_AT_HUB, PARCEL_LOAD_OUTBOUND_FROM_AT_HUB_INBOUND,
    PARCEL_LOAD_OUTBOUND_FROM_STORED_AT_HUB, PARCEL_DEPART_FROM_HUB, PARCEL_NOTIFY_FOR_PICKUP, PARCEL_PICKUP,
    PARCEL_DISPUTE_FROM_DELIVERED, PARCEL_DISPUTE_FROM_AVAILABLE_FOR_PICKUP,
    PARCEL_INITIATE_RETURN_FROM_AVAILABLE_FOR_PICKUP, PARCEL_INITIATE_RETURN_FROM_STORED_AT_HUB,
    PARCEL_COMPLETE_RETURN
  ]
  const VOUCHER_STEPS: seq<Step> := [VOUCHER_REDEEM, VOUCHER_RESTORE, VOUCHER_EXPIRE, VOUCHER_CANCEL]
  const COMPENSATION_ITEM_STEPS: seq<Step> := [COMPENSATION_DELIVER, COMPENSATION_DECLINE]
  const INVOICE_STEPS: seq<Step> := [
    INVOICE_ISSUE, INVOICE_MARK_PAID_FROM_ISSUED, INVOICE_MARK_PAID_FROM_DRAFT, INVOICE_CANCEL_FROM_DRAFT,
    INVOICE_CANCEL_FROM_ISSUED
  ]
  const STAFF_STEPS: seq<Step> := [
    STAFF_SUSPEND, STAFF_REACTIVATE, STAFF_ARCHIVE_FROM_ACTIVE, STAFF_ARCHIVE_FROM_SUSPENDED
  ]
  const STAFF_ASSIGNMENT_STEPS: seq<Step> := [
    ASSIGNMENT_SUSPEND, ASSIGNMENT_REACTIVATE, ASSIGNMENT_CLOSE_FROM_ACTIVE, ASSIGNMENT_CLOSE_FROM_SUSPENDED
  ]
  const SUPPORT_TICKET_STEPS: seq<Step> := [
    SUPPORT_START, SUPPORT_AWAIT, SUPPORT_RESUME, SUPPORT_RESOLVE_FROM_IN_PROGRESS,
    SUPPORT_RESOLVE_FROM_WAITING_CUSTOMER, SUPPORT_RESOLVE_FROM_OPEN, SUPPORT_CLOSE, SUPPORT_REOPEN
  ]
  const DRIVER_TRAINING_STEPS: seq<Step> := [
    TRAINING_START, TRAINING_COMPLETE_FROM_IN_PROGRESS, TRAINING_COMPLETE_FROM_PLANNED, TRAINING_MISS, TRAINING_CANCEL
  ]
  const QHSE_EXECUTION_STEPS: seq<Step> := [QHSE_COMPLETE, QHSE_ABORT]

  const LIFECYCLE_ROWS: seq<Row> :=
    Of(Trip, TRIP_STEPS) + Of(Ticket, TICKET_STEPS) + Of(Parcel, PARCEL_STEPS) + Of(Traveler, TRAVELER_STEPS)
    + Of(Bus, BUS_STEPS) + Of(Shipment, SHIPMENT_STEPS)

  const BLUEPRINT_ROWS: seq<Row> :=
    Of(MaintenanceReport, MAINTENANCE_REPORT_STEPS) + Of(Claim, CLAIM_STEPS) + Of(Refund, REFUND_STEPS)
    + Of(Manifest, MANIFEST_STEPS) + Of(Checklist, CHECKLIST_STEPS) + Of(CrewAssignment, CREW_ASSIGNMENT_STEPS)
    + Of(Driver, DRIVER_STEPS) + Of(CashRegister, CASH_REGISTER_STEPS) + Of(Incident, INCIDENT_STEPS)

  const JOURNEY_ROWS: seq<Row> :=
    Of(Trip, TRIP_INCIDENTS_STEPS) + Of(Ticket, TICKET_NO_SHOW_STEPS) + Of(Parcel, PARCEL_HUBS_STEPS)

  const BUSINESS_ROWS: seq<Row> :=
    Of(Voucher, VOUCHER_STEPS) + Of(CompensationItem, COMPENSATION_ITEM_STEPS) + Of(Invoice, INVOICE_STEPS)
    + Of(Staff, STAFF_STEPS) + Of(StaffAssignment, STAFF_ASSIGNMENT_STEPS) + Of(SupportTicket, SUPPORT_TICKET_STEPS)
    + Of(DriverTraining, DRIVER_TRAINING_STEPS) + Of(QhseExecution, QHSE_EXECUTION_STEPS)

  const DEFAULT_WORKFLOW_CONFIGS := LIFECYCLE_ROWS + BLUEPRINT_ROWS + JOURNEY_ROWS + BUSINESS_ROWS

  /** The steps of one kind of entity, wherever the table lists them. */
  function StepsOf(e: Entity): seq<Step> {
    match e
    case Trip => TRIP_STEPS + TRIP_INCIDENTS_STEPS
    case Ticket => TICKET_STEPS + TICKET_NO_SHOW_STEPS
    case Parcel => PARCEL_STEPS + PARCEL_HUBS_STEPS
    case Traveler => TRAVELER_STEPS
    case Bus => BUS_STEPS
    case Shipment => SHIPMENT_STEPS
    case MaintenanceReport => MAINTENANCE_REPORT_STEPS
    case Claim => CLAIM_STEPS
    case Refund => REFUND_STEPS
    case Manifest => MANIFEST_STEPS
    case Checklist => CHECKLIST_STEPS
    case CrewAssignment => CREW_ASSIGNMENT_STEPS
    case Driver => DRIVER_STEPS
    case CashRegister => CASH_REGISTER_STEPS
    case Incident => INCIDENT_STEPS
    case Voucher => VOUCHER_STEPS
    case CompensationItem => COMPENSATION_ITEM_STEPS
    case Invoice => INVOICE_STEPS
    case Staff => STAFF_STEPS
    case StaffAssignment => STAFF_ASSIGNMENT_STEPS
    case SupportTicket => SUPPORT_TICKET_STEPS
    case DriverTraining => DRIVER_TRAINING_STEPS
    case QhseExecution => QHSE_EXECUTION_STEPS
    case _ => []
  }

  function StepOf(r: Row): Step {
    Step(r.key.from, r.key.action, r.to, r.perm)
  }

  lemma InOf(r: Row, e: Entity, steps: seq<Step>)
    ensures r in Of(e, steps) <==> r.key.entity == e && StepOf(r) in steps
  {
    if r.key.entity == e && StepOf(r) in steps {
      var i :| 0 <= i < |steps| && steps[i] == StepOf(r);
      assert Of(e, steps)[i] == r;
    }
  }

  lemma InLifecycleRows(r: Row)
    ensures r in LIFECYCLE_ROWS <==>
      (r.key.entity == Trip && StepOf(r) in TRIP_STEPS) || (r.key.entity == Ticket && StepOf(r) in TICKET_STEPS)
      || (r.key.entity == Parcel && StepOf(r) in PARCEL_STEPS)
      || (r.key.entity == Traveler && StepOf(r) in TRAVELER_STEPS)
      || (r.key.entity == Bus && StepOf(r) in BUS_STEPS)
      || (r.key.entity == Shipment && StepOf(r) in SHIPMENT_STEPS)
  {
    hide Of, TRIP_STEPS, TICKET_STEPS, PARCEL_STEPS, TRAVELER_STEPS, BUS_STEPS, SHIPMENT_STEPS;
    InOf(r, Trip, TRIP_STEPS);
    InOf(r, Ticket, TICKET_STEPS);
    InOf(r, Parcel, PARCEL_STEPS);
    InOf(r, Traveler, TRAVELER_STEPS);
    InOf(r, Bus, BUS_STEPS);
    InOf(r, Shipment, SHIPMENT_STEPS);
  }

  lemma InBlueprintRows(r: Row)
    ensures r in BLUEPRINT_ROWS <==>
      (r.key.entity == MaintenanceReport && StepOf(r) in MAINTENANCE_REPORT_STEPS)
      || (r.key.entity == Claim && StepOf(r) in CLAIM_STEPS)
      || (r.key.entity == Refund && StepOf(r) in REFUND_STEPS)
      || (r.key.entity == Manifest && StepOf(r) in MANIFEST_STEPS)
      || (r.key.entity == Checklist && StepOf(r) in CHECKLIST_STEPS)
      || (r.key.entity == CrewAssignment && StepOf(r) in CREW_ASSIGNMENT_STEPS)
      || (r.key.entity == Driver && StepOf(r) in DRIVER_STEPS)
      || (r.key.entity == CashRegister && StepOf(r) in CASH_REGISTER_STEPS)
      || (r.key.entity == Incident && StepOf(r) in INCIDENT_STEPS)
  {
    hide Of, MAINTENANCE_REPORT_STEPS, CLAIM_STEPS, REFUND_STEPS, MANIFEST_STEPS, CHECKLIST_STEPS,
      CREW_ASSIGNMENT_STEPS, DRIVER_STEPS, CASH_REGISTER_STEPS, INCIDENT_STEPS;
    InOf(r, MaintenanceReport, MAINTENANCE_REPORT_STEPS);
    InOf(r, Claim, CLAIM_STEPS);
    InOf(r, Refund, REFUND_STEPS);
    InOf(r, Manifest, MANIFEST_STEPS);
    InOf(r, Checklist, CHECKLIST_STEPS);
    InOf(r, CrewAssignment, CREW_ASSIGNMENT_STEPS);
    InOf(r, Driver, DRIVER_STEPS);
    InOf(r, CashRegister, CASH_REGISTER_STEPS);
    InOf(r, Incident, INCIDENT_STEPS);
  }

  lemma InJourneyRows(r: Row)
    ensures r in JOURNEY_ROWS <==>
      (r.key.entity == Trip && StepOf(r) in TRIP_INCIDENTS_STEPS)
      || (r.key.entity == Ticket && StepOf(r) in TICKET_NO_SHOW_STEPS)
      || (r.key.entity == Parcel && StepOf(r) in PARCEL_HUBS_STEPS)
  {
    hide Of, TRIP_INCIDENTS_STEPS, TICKET_NO_SHOW_STEPS, PARCEL_HUBS_STEPS;
    InOf(r, Trip, TRIP_INCIDENTS_STEPS);
    InOf(r, Ticket, TICKET_NO_SHOW_STEPS);
    InOf(r, Parcel, PARCEL_HUBS_STEPS);
  }

  lemma InBusinessRows(r: Row)
    ensures r in BUSINESS_ROWS <==>
      (r.key.entity == Voucher && StepOf(r) in VOUCHER_STEPS)
      || (r.key.entity == CompensationItem && StepOf(r) in COMPENSATION_ITEM_STEPS)
      || (r.key.entity == Invoice && StepOf(r) in INVOICE_STEPS)
      || (r.key.entity == Staff && StepOf(r) in STAFF_STEPS)
      || (r.key.entity == StaffAssignment && StepOf(r) in STAFF_ASSIGNMENT_STEPS)
      || (r.key.entity == SupportTicket && StepOf(r) in SUPPORT_TICKET_STEPS)
      || (r.key.entity == DriverTraining && StepOf(r) in DRIVER_TRAINING_STEPS)
      || (r.key.entity == QhseExecution && StepOf(r) in QHSE_EXECUTION_STEPS)
  {
    hide Of, VOUCHER_STEPS, COMPENSATION_ITEM_STEPS, INVOICE_STEPS, STAFF_STEPS, STAFF_ASSIGNMENT_STEPS,
      SUPPORT_TICKET_STEPS, DRIVER_TRAINING_STEPS, QHSE_EXECUTION_STEPS;
    InOf(r, Voucher, VOUCHER_STEPS);
    InOf(r, CompensationItem, COMPENSATION_ITEM_STEPS);
    InOf(r, Invoice, INVOICE_STEPS);
    InOf(r, Staff, STAFF_STEPS);
    InOf(r, StaffAssignment, STAFF_ASSIGNMENT_STEPS);
    InOf(r, SupportTicket, SUPPORT_TICKET_STEPS);
    InOf(r, DriverTraining, DRIVER_TRAINING_STEPS);
    InOf(r, QhseExecution, QHSE_EXECUTION_STEPS);
  }

  /** The table holds exactly its entities' steps: no row strays into another entity's block. */
  lemma TableByEntity(r: Row)
    ensures r in DEFAULT_WORKFLOW_CONFIGS <==> StepOf(r) in StepsOf(r.key.entity)
  {
    hide StepOf, Of, LIFECYCLE_ROWS, BLUEPRINT_ROWS, JOURNEY_ROWS, BUSINESS_ROWS, TRIP_STEPS, TICKET_STEPS,
      PARCEL_STEPS, TRAVELER_STEPS, BUS_STEPS, SHIPMENT_STEPS, MAINTENANCE_REPORT_STEPS, CLAIM_STEPS, REFUND_STEPS,
      MANIFEST_STEPS, CHECKLIST_STEPS, CREW_ASSIGNMENT_STEPS, DRIVER_STEPS, CASH_REGISTER_STEPS, INCIDENT_STEPS,
      TRIP_INCIDENTS_STEPS, TICKET_NO_SHOW_STEPS, PARCEL_HUBS_STEPS, VOUCHER_STEPS, COMPENSATION_ITEM_STEPS,
      INVOICE_STEPS, STAFF_STEPS, STAFF_ASSIGNMENT_STEPS, SUPPORT_TICKET_STEPS, DRIVER_TRAINING_STEPS,
      QHSE_EXECUTION_STEPS;
    InLifecycleRows(r);
    InBlueprintRows(r);
    InJourneyRows(r);
    InBusinessRows(r);
  }

  /** The same steps, as a choice among them. */
  predicate IsStep(e: Entity, s: Step) {
    match e
    case Trip => s in {
      TRIP_START_BOARDING, TRIP_BEGIN_BOARDING, TRIP_DEPART, TRIP_PAUSE, TRIP_RESUME, TRIP_REPORT_INCIDENT,
      TRIP_CLEAR_INCIDENT, TRIP_END_TRIP, TRIP_CANCEL, TRIP_SUSPEND_FROM_IN_PROGRESS,
      TRIP_SUSPEND_FROM_IN_PROGRESS_DELAYED, TRIP_RESUME_FROM_SUSPEND, TRIP_CANCEL_IN_TRANSIT_FROM_IN_PROGRESS,
      TRIP_CANCEL_IN_TRANSIT_FROM_IN_PROGRESS_DELAYED, TRIP_CANCEL_IN_TRANSIT_FROM_SUSPENDED,
      TRIP_DECLARE_MAJOR_DELAY_FROM_IN_PROGRESS, TRIP_DECLARE_MAJOR_DELAY_FROM_IN_PROGRESS_DELAYED,
      TRIP_DECLARE_MAJOR_DELAY_FROM_SUSPENDED
    }
    case Ticket => s in {
      TICKET_RESERVE, TICKET_PAY, TICKET_EXPIRE, TICKET_CHECK_IN, TICKET_BOARD_FROM_CHECKED_IN,
      TICKET_BOARD_FROM_CONFIRMED, TICKET_FINALIZE, TICKET_CANCEL_FROM_CONFIRMED, TICKET_CANCEL_FROM_PENDING_PAYMENT,
      TICKET_REFUND, TICKET_APPROVE, TICKET_PROCESS, TICKET_FAIL, TICKET_MISS_BOARDING_FROM_CONFIRMED,
      TICKET_MISS_BOARDING_FROM_CHECKED_IN, TICKET_MARK_LATE_ARRIVED,
      TICKET_REBOOK_NEXT_AVAILABLE_FROM_NO_SHOW_AGENCY, TICKET_REBOOK_NEXT_AVAILABLE_FROM_LATE_ARRIVED,
      TICKET_REBOOK_NEXT_AVAILABLE_FROM_CONFIRMED_AGENCY, TICKET_REBOOK_LATER_FROM_NO_SHOW,
      TICKET_REBOOK_LATER_FROM_LATE_ARRIVED, TICKET_REBOOK_LATER_FROM_CONFIRMED_AGENCY,
      TICKET_REBOOK_NEXT_AVAILABLE_FROM_CONFIRMED_OWN, TICKET_REBOOK_LATER_FROM_CONFIRMED_OWN,
      TICKET_REBOOK_NEXT_AVAILABLE_FROM_NO_SHOW_OWN, TICKET_REQUEST_REFUND_FROM_NO_SHOW_OWN,
      TICKET_REQUEST_REFUND_FROM_LATE_ARRIVED, TICKET_REQUEST_REFUND_FROM_NO_SHOW_AGENCY, TICKET_FORFEIT_FROM_NO_SHOW,
      TICKET_FORFEIT_FROM_LATE_ARRIVED
    }
    case Parcel => s in {
      PARCEL_RECEIVE, PARCEL_ADD_TO_SHIPMENT, PARCEL_LOAD, PARCEL_DEPART, PARCEL_ARRIVE, PARCEL_DELIVER,
      PARCEL_DAMAGE, PARCEL_DECLARE_LOST, PARCEL_RETURN, PARCEL_ARRIVE_AT_HUB, PARCEL_STORE_AT_HUB,
      PARCEL_LOAD_OUTBOUND_FROM_AT_HUB_INBOUND, PARCEL_LOAD_OUTBOUND_FROM_STORED_AT_HUB, PARCEL_DEPART_FROM_HUB,
      PARCEL_NOTIFY_FOR_PICKUP, PARCEL_PICKUP, PARCEL_DISPUTE_FROM_DELIVERED,
      PARCEL_DISPUTE_FROM_AVAILABLE_FOR_PICKUP, PARCEL_INITIATE_RETURN_FROM_AVAILABLE_FOR_PICKUP,
      PARCEL_INITIATE_RETURN_FROM_STORED_AT_HUB, PARCEL_COMPLETE_RETURN
    }
    case Traveler => s in {TRAVELER_VERIFY, TRAVELER_SCAN_IN, TRAVELER_SCAN_BOARD, TRAVELER_SCAN_OUT, TRAVELER_EXIT}
    case Bus => s in {
      BUS_OPEN_BOARDING_FROM_AVAILABLE, BUS_OPEN_BOARDING_FROM_IDLE, BUS_DEPART, BUS_ARRIVE, BUS_CLEAN,
      BUS_RESTORE_FROM_CLOSED, BUS_INCIDENT_MECHANICAL_FROM_AVAILABLE, BUS_INCIDENT_MECHANICAL_FROM_BOARDING,
      BUS_INCIDENT_MECHANICAL_FROM_DEPARTED, BUS_RESTORE_FROM_MAINTENANCE
    }
    case Shipment => s in {SHIPMENT_LOAD, SHIPMENT_DEPART, SHIPMENT_ARRIVE, SHIPMENT_CLOSE}
    case MaintenanceReport => s in {
      MAINTENANCE_START_WORK, MAINTENANCE_COMPLETE, MAINTENANCE_APPROVE, MAINTENANCE_REOPEN
    }
    case Claim => s in {
      CLAIM_ASSIGN, CLAIM_INVESTIGATE, CLAIM_RESOLVE_FROM_UNDER_INVESTIGATION, CLAIM_REJECT_FROM_UNDER_INVESTIGATION,
      CLAIM_RESOLVE_FROM_OPEN, CLAIM_REJECT_FROM_OPEN, CLAIM_RESOLVE_FROM_ASSIGNED, CLAIM_REJECT_FROM_ASSIGNED,
      CLAIM_CLOSE
    }
    case Refund => s in {
      REFUND_APPROVE_TENANT, REFUND_APPROVE_AGENCY, REFUND_AUTO_APPROVE, REFUND_REJECT_FROM_PENDING, REFUND_PROCESS,
      REFUND_REJECT_FROM_APPROVED
    }
    case Manifest => s in {MANIFEST_SUBMIT, MANIFEST_SIGN, MANIFEST_REJECT, MANIFEST_ARCHIVE, MANIFEST_REVISE}
    case Checklist => s in {
      CHECKLIST_START_TECH, CHECKLIST_PASS_TECH, CHECKLIST_FAIL_TECH, CHECKLIST_PASS_SAFETY, CHECKLIST_FAIL_SAFETY,
      CHECKLIST_APPROVE_ALL, CHECKLIST_DOCS_MISSING, CHECKLIST_FIX_AND_RETRY, CHECKLIST_COMPLETE
    }
    case CrewAssignment => s in {
      CREW_ASSIGN_BRIEFING, CREW_START_DUTY, CREW_CANCEL, CREW_END_DUTY, CREW_EMERGENCY_OFF, CREW_START_REST,
      CREW_REST_COMPLETE, CREW_REINSTATE
    }
    case Driver => s in {
      DRIVER_ASSIGN, DRIVER_START_DUTY, DRIVER_UNASSIGN, DRIVER_END_SHIFT, DRIVER_EMERGENCY_OFF, DRIVER_START_REST,
      DRIVER_REST_COMPLETE, DRIVER_REINSTATE
    }
    case CashRegister => s in {REGISTER_OPEN, REGISTER_CLOSE, REGISTER_FLAG, REGISTER_RESOLVE}
    case Incident => s in {
      INCIDENT_ASSIGN, INCIDENT_START_WORK, INCIDENT_RESOLVE_FROM_IN_PROGRESS, INCIDENT_RESOLVE_FROM_ASSIGNED,
      INCIDENT_RESOLVE_FROM_OPEN, INCIDENT_CLOSE, INCIDENT_REOPEN
    }
    case Voucher => s in {VOUCHER_REDEEM, VOUCHER_RESTORE, VOUCHER_EXPIRE, VOUCHER_CANCEL}
    case CompensationItem => s in {COMPENSATION_DELIVER, COMPENSATION_DECLINE}
    case Invoice => s in {
      INVOICE_ISSUE, INVOICE_MARK_PAID_FROM_ISSUED, INVOICE_MARK_PAID_FROM_DRAFT, INVOICE_CANCEL_FROM_DRAFT,
      INVOICE_CANCEL_FROM_ISSUED
    }
    case Staff => s in {STAFF_SUSPEND, STAFF_REACTIVATE, STAFF_ARCHIVE_FROM_ACTIVE, STAFF_ARCHIVE_FROM_SUSPENDED}
    case StaffAssignment => s in {
      ASSIGNMENT_SUSPEND, ASSIGNMENT_REACTIVATE, ASSIGNMENT_CLOSE_FROM_ACTIVE, ASSIGNMENT_CLOSE_FROM_SUSPENDED
    }
    case SupportTicket => s in {
      SUPPORT_START, SUPPORT_AWAIT, SUPPORT_RESUME, SUPPORT_RESOLVE_FROM_IN_PROGRESS,
      SUPPORT_RESOLVE_FROM_WAITING_CUSTOMER, SUPPORT_RESOLVE_FROM_OPEN, SUPPORT_CLOSE, SUPPORT_REOPEN
    }
    case DriverTraining => s in {
      TRAINING_START, TRAINING_COMPLETE_FROM_IN_PROGRESS, TRAINING_COMPLETE_FROM_PLANNED, TRAINING_MISS,
      TRAINING_CANCEL
    }
    case QhseExecution => s in {QHSE_COMPLETE, QHSE_ABORT}
    case _ => false
  }

  predicate OnJourney(e: Entity) {
    e.Trip? || e.Ticket? || e.Parcel?
  }

  predicate InService(e: Entity) {
    e.Traveler? || e.Bus? || e.Shipment? || e.MaintenanceReport? || e.Claim? || e.Refund? || e.Manifest?
    || e.Checklist? || e.CrewAssignment?
  }

  lemma JourneyStepsListed(e: Entity, s: Step)
    requires OnJourney(e)
    ensures s in StepsOf(e) ==> IsStep(e, s)
  {
  }

  lemma ServiceStepsListed(e: Entity, s: Step)
    requires InService(e)
    ensures s in StepsOf(e) ==> IsStep(e, s)
  {
  }

  lemma BusinessStepsListed(e: Entity, s: Step)
    requires !OnJourney(e) && !InService(e)
    ensures s in StepsOf(e) ==> IsStep(e, s)
  {
  }

  lemma StepsListed(e: Entity, s: Step)
    requires s in StepsOf(e)
    ensures IsStep(e, s)
  {
    hide StepsOf, IsStep;
    if OnJourney(e) {
      JourneyStepsListed(e, s);
    } else if InService(e) {
      ServiceStepsListed(e, s);
    } else {
      BusinessStepsListed(e, s);
    }
  }

  /** Where one of two steps leads, the other leads too, if their verb alone must decide. */
  predicate SameGoal(s: Step, q: Step) {
    s.action == q.action && (s.from == q.from || !s.action.DECLARE_MAJOR_DELAY?) ==> s.to == q.to
  }

  /**
   * The verb alone decides where a default transition leads, whatever the state it starts from, except for
   * DECLARE_MAJOR_DELAY, which leaves a suspended trip suspended. In particular the duplicated keys agree.
   */
  lemma VerbDecides(e: Entity, s: Step, q: Step)
    requires s in StepsOf(e) && q in StepsOf(e)
    ensures SameGoal(s, q)
  {
    hide StepsOf, IsStep, SameGoal;
    StepsListed(e, s);
    StepsListed(e, q);
    if e.Ticket? {
      TicketGoals(s, q);
    } else if e.Trip? || e.Parcel? {
      TripAndParcelGoals(e, s, q);
    } else {
      OtherGoals(e, s, q);
    }
  }

  lemma TicketGoals(s: Step, q: Step)
    requires IsStep(Ticket, s) && IsStep(Ticket, q)
    ensures SameGoal(s, q)
  {
  }

  lemma TripAndParcelGoals(e: Entity, s: Step, q: Step)
    requires (e.Trip? || e.Parcel?) && IsStep(e, s) && IsStep(e, q)
    ensures SameGoal(s, q)
  {
  }

  lemma OtherGoals(e: Entity, s: Step, q: Step)
    requires !e.Ticket? && !e.Trip? && !e.Parcel? && IsStep(e, s) && IsStep(e, q)
    ensures SameGoal(s, q)
  {
  }

  // ----- Who may act: TENANT_ROLES, restricted to the permissions of the table -----

  datatype Role =
    TENANT_ADMIN | AGENCY_MANAGER | CASHIER | ACCOUNTANT | DRIVER | HOSTESS | MECHANIC | AGENT_QUAI | CUSTOMER
    | DISPATCHER | PUBLIC_REPORTER

  predicate Holds(role: Role, p: Permission) {
    match role
    case TENANT_ADMIN => p in {
      Perm(control_staff_manage, Tenant), Perm(data_trip_update, Agency), Perm(data_trip_report, Own),
      Perm(data_ticket_create, Agency), Perm(data_ticket_cancel, Agency), Perm(data_ticket_scan, Agency),
      Perm(data_traveler_verify, Agency), Perm(data_parcel_scan, Agency), Perm(data_parcel_update, Agency),
      Perm(data_parcel_update, Tenant), Perm(data_parcel_report, Agency), Perm(data_shipment_group, Agency),
      Perm(data_fleet_status, Agency), Perm(data_maintenance_update, Own), Perm(data_maintenance_approve, Tenant),
      Perm(data_manifest_generate, Agency), Perm(data_manifest_sign, Agency), Perm(data_cashier_open, Own),
      Perm(data_cashier_close, Agency), Perm(data_sav_report, Agency), Perm(data_sav_deliver, Agency),
      Perm(data_sav_claim, Tenant), Perm(data_refund_approve, Tenant), Perm(data_refund_process, Tenant),
      Perm(data_manifest_print, Agency), Perm(control_driver_manage, Tenant), Perm(control_qhse_manage, Tenant),
      Perm(control_invoice_manage, Tenant), Perm(data_invoice_create, Agency), Perm(data_ticket_rebook, Agency),
      Perm(data_ticket_noshow_mark, Agency), Perm(control_trip_suspend, Agency),
      Perm(control_trip_cancel_in_transit, Tenant), Perm(control_trip_declare_major_delay, Agency),
      Perm(data_parcel_hub_move, Agency), Perm(data_parcel_pickup, Agency),
      Perm(control_parcel_return_init, Tenant), Perm(data_compensation_issue, Agency),
      Perm(data_voucher_redeem, Agency), Perm(control_voucher_cancel, Tenant)
    }
    case AGENCY_MANAGER => p in {
      Perm(data_trip_update, Agency), Perm(data_ticket_cancel, Agency), Perm(data_ticket_scan, Agency),
      Perm(data_traveler_verify, Agency), Perm(data_parcel_scan, Agency), Perm(data_parcel_update, Agency),
      Perm(data_parcel_report, Agency), Perm(data_shipment_group, Agency), Perm(data_fleet_status, Agency),
      Perm(data_manifest_generate, Agency), Perm(data_manifest_sign, Agency), Perm(data_cashier_open, Own),
      Perm(data_cashier_close, Agency), Perm(data_sav_report, Agency), Perm(data_sav_deliver, Agency),
      Perm(data_sav_claim, Tenant), Perm(data_refund_approve, Agency), Perm(data_manifest_print, Agency),
      Perm(data_invoice_create, Agency), Perm(data_ticket_rebook, Agency), Perm(data_ticket_noshow_mark, Agency),
      Perm(control_trip_suspend, Agency), Perm(control_trip_declare_major_delay, Agency),
      Perm(data_parcel_hub_move, Agency), Perm(data_parcel_pickup, Agency), Perm(data_compensation_issue, Agency),
      Perm(data_voucher_redeem, Agency)
    }
    case CASHIER => p in {
      Perm(data_ticket_create, Agency), Perm(data_ticket_cancel, Agency), Perm(data_cashier_open, Own),
      Perm(data_cashier_close, Agency), Perm(data_invoice_create, Agency), Perm(data_ticket_rebook, Agency),
      Perm(data_voucher_redeem, Agency)
    }
    case ACCOUNTANT => p in {
      Perm(data_invoice_create, Agency), Perm(data_refund_approve, Tenant), Perm(data_refund_process, Tenant),
      Perm(data_cashier_close, Agency)
    }
    case DRIVER => p in {
      Perm(data_trip_update, Agency), Perm(data_trip_report, Own), Perm(control_trip_log_event, Own),
      Perm(data_ticket_scan, Agency), Perm(data_traveler_verify, Agency), Perm(data_manifest_generate, Agency),
      Perm(data_manifest_sign, Agency), Perm(data_manifest_print, Agency), Perm(data_parcel_scan, Agency),
      Perm(data_parcel_update, Agency), Perm(data_parcel_report, Agency), Perm(data_driver_rest, Own),
      Perm(data_maintenance_update, Own), Perm(control_trip_suspend, Agency),
      Perm(control_trip_declare_major_delay, Agency), Perm(data_compensation_issue, Agency)
    }
    case HOSTESS => p in {
      Perm(data_ticket_scan, Agency), Perm(data_traveler_verify, Agency), Perm(data_manifest_print, Agency),
      Perm(data_compensation_issue, Agency)
    }
    case MECHANIC => p in {Perm(data_fleet_status, Agency), Perm(data_maintenance_update, Own)}
    case AGENT_QUAI => p in {
      Perm(data_parcel_scan, Agency), Perm(data_parcel_update, Agency), Perm(data_parcel_report, Agency),
      Perm(data_shipment_group, Agency), Perm(data_ticket_scan, Agency), Perm(data_traveler_verify, Agency),
      Perm(data_trip_update, Agency), Perm(data_manifest_generate, Agency), Perm(data_manifest_sign, Agency),
      Perm(data_manifest_print, Agency), Perm(data_ticket_noshow_mark, Agency), Perm(data_parcel_hub_move, Agency),
      Perm(data_parcel_pickup, Agency), Perm(data_compensation_issue, Agency), Perm(data_voucher_redeem, Agency)
    }
    case CUSTOMER => p in {
      Perm(data_refund_request, Own), Perm(data_ticket_rebook, Own), Perm(data_parcel_dispute, Own)
    }
    case DISPATCHER => p == Perm(data_trip_update, Agency)
    case PUBLIC_REPORTER => false
  }
}
