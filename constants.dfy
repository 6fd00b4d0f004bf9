/** The constants of pkg/constants/constants.go that the service uses. */
module Constants {

  const APPLICATION_NAME := "compute-decider"

  // HTTP header names and values
  const CONTENT_TYPE := "Content-Type"
  const RANGE_SUPPORTED := "Accept-Ranges"
  const APPLICATION_JSON := "application/json"
  const HEAD := "HEAD"
  const CONTENT_LENGTH := "Content-Length"
  const BYTES := "bytes"
  const REGION := "us-central1"
  const HEALTH := "/health"

  const HARDCODED_BUCKET_NAME := "prj-wayne-media-bucket"

  // audit statuses
  const STARTED := "STARTED"
  const COMPLETED := "COMPLETED"
  const IN_PROGRESS := "IN_PROGRESS"
  const FAILED := "FAILED"

  // audit event names
  const APPLICATION_STARTED_EVENT := "compute_decider.application_started"
  const REQUEST_BODY_FAILED := "compute_decider.request_body_failed"
  const INVALID_JSON_FORMAT := "compute_decider.invalid_json_format"
  const FILE_URL_MISSING := "compute_decider.file_url_missing"
  const ERROR_FETCHING_FILE_SIZE := "compute_decider.error_fetching_file_size"
  const ANALYZE_FILE_STARTED := "compute_decider.analyze_file_started"
  const ANALYZE_FILE_COMPLETED := "compute_decider.analyze_file_completed"
  const TRIGGER_CLOUD_RUN_JOB := "compute_decider.trigger_cloud_run_job"
  const FAILED_TRIGGER_CLOUD_RUN_JOB := "compute_decider.trigger_cloud_run_job_failed"
  const FAILED_TO_CHECK_IF_FILE_EXISTS := "compute_decider.failed_to_check_file_exists"
  const ERROR_CREATING_GCS_CLIENT := "compute_decider.error_creating_gcs_client"
  const APPLICATION_COMPLETED_EVENT := "compute_decider.application_completed"

  // file extensions that select a downstream job
  const GZ := ".gz"
  const ZIP := ".zip"
  const JSON := ".json"

  // Cloud Run job names
  const CLOUD_RUN_JOB_NAME := "prj-wayne-file-streamer"
  const GZ_JOB_NAME := "prj-wayne-gz-streamer"
  const ZIP_DOWNLOADER_JOB_NAME := "prj-wayne-zip-downloader"

  // HTTP status codes written by the handler
  const StatusOK := 200
  const StatusBadRequest := 400
  const StatusInternalServerError := 500
}
